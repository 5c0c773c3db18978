/**
 * The id generator of `src/utils/addId.ts`: a module-level record holding a
 * random prefix in [0, 9999] and a counter; every id is `<prefix>-<counter>`
 * and the counter is incremented after it is read.
 */
module IdGen {
  import opened Decimal

  /** `${prefix}-${n}` */
  function IdString(prefix: nat, n: nat): string
  {
    NatToString(prefix) + "-" + NatToString(n)
  }

  /** The ids a generator with this prefix has handed out once its counter reached `count`. */
  function IssuedIds(prefix: nat, count: nat): (ids: seq<string>)
    ensures |ids| == count
    ensures forall k :: 0 <= k < count ==> ids[k] == IdString(prefix, k)
  {
    seq(count, k requires 0 <= k => IdString(prefix, k))
  }

  /** An id determines both its prefix and its counter value. */
  lemma {:induction false} IdStringInjective(p1: nat, n1: nat, p2: nat, n2: nat)
    ensures IdString(p1, n1) == IdString(p2, n2) <==> p1 == p2 && n1 == n2
  {
    if IdString(p1, n1) == IdString(p2, n2) {
      var a1, a2 := NatToString(p1), NatToString(p2);
      var s := IdString(p1, n1);
      // the first '-' of an id ends its prefix: digits contain no '-'
      assert s[|a1|] == '-' && s[|a2|] == '-';
      assert a1 == s[..|a1|] == a2;
      assert NatToString(n1) == s[|a1| + 1..] == NatToString(n2);
      NatToStringInjective(p1, p2);
      NatToStringInjective(n1, n2);
    }
  }

  /** Ids produced by one generator are pairwise distinct. */
  lemma IssuedIdsDistinct(prefix: nat, count: nat)
    ensures forall i, j :: 0 <= i < j < count ==> IssuedIds(prefix, count)[i] != IssuedIds(prefix, count)[j]
  {
    forall i, j | 0 <= i < j < count
      ensures IssuedIds(prefix, count)[i] != IssuedIds(prefix, count)[j]
    {
      IdStringInjective(prefix, i, prefix, j);
    }
  }

  /** The id a generator will produce at counter value `n` differs from every id it produced before. */
  lemma NextIdFresh(prefix: nat, n: nat)
    ensures IdString(prefix, n) !in IssuedIds(prefix, n)
  {
    if IdString(prefix, n) in IssuedIds(prefix, n) {
      var k :| 0 <= k < n && IssuedIds(prefix, n)[k] == IdString(prefix, n);
      IdStringInjective(prefix, k, prefix, n);
    }
  }

  /** `defaultIdInjection`: the prefix is fixed at load time, the counter starts at 0. */
  class IdGenerator {
    const prefix: nat
    var current: nat
    ghost var issued: seq<string>

    ghost predicate Valid()
      reads this
    {
      prefix <= 9999 && issued == IssuedIds(prefix, current)
    }

    /** `prefix` stands for `Math.floor(Math.random() * 10000)`. */
    constructor (prefix: nat)
      requires prefix <= 9999
      ensures Valid() && this.prefix == prefix && current == 0 && issued == []
    {
      this.prefix := prefix;
      current := 0;
      issued := [];
    }

    /** `addId().value`: the id for the current counter, then the counter moves on by one. */
    method Next() returns (id: string)
      requires Valid()
      modifies this
      ensures Valid()
      ensures id == IdString(prefix, old(current)) && current == old(current) + 1
      ensures id !in old(issued) && issued == old(issued) + [id]
    {
      id := IdString(prefix, current);
      NextIdFresh(prefix, current);
      current := current + 1;
      issued := issued + [id];
    }
  }
}
