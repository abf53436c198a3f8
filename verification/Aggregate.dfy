/**
 The relational fragment behind every statement of the store: WHERE and SELECT
 (Project), GROUP BY with SUM (Group), and the sum over a predicate (Total).
 The central fact is GroupKeepsTotals: grouping never changes the sum over any
 predicate of the key, so an aggregate of an aggregate is an aggregate.
 */
module Aggregate {
  import opened Common

  datatype Rec<K> = Rec(key: K, value: nat)

  function Total<K>(rs: seq<Rec<K>>, p: K -> bool): nat {
    if rs == [] then 0
    else Total(rs[..|rs| - 1], p) + if p(rs[|rs| - 1].key) then rs[|rs| - 1].value else 0
  }

  /** Keep the records whose key f maps to Some, under their new key. */
  function Project<K, L>(rs: seq<Rec<K>>, f: K -> Option<L>): seq<Rec<L>> {
    if rs == [] then []
    else
      var last := rs[|rs| - 1];
      Project(rs[..|rs| - 1], f) + match f(last.key) case None => [] case Some(l) => [Rec(l, last.value)]
  }

  /** Fold one record into a list of groups. */
  function Add<K(==)>(gs: seq<Rec<K>>, r: Rec<K>): seq<Rec<K>> {
    if gs == [] then [r]
    else if gs[|gs| - 1].key == r.key then gs[..|gs| - 1] + [Rec(r.key, gs[|gs| - 1].value + r.value)]
    else Add(gs[..|gs| - 1], r) + [gs[|gs| - 1]]
  }

  function Group<K(==)>(rs: seq<Rec<K>>): seq<Rec<K>> {
    if rs == [] then [] else Add(Group(rs[..|rs| - 1]), rs[|rs| - 1])
  }

  function Is<K(==)>(k: K): K -> bool {
    x => x == k
  }

  function Any<K>(): K -> bool {
    x => true
  }

  /** The predicate p seen through the projection f. */
  function Pull<K, L>(f: K -> Option<L>, p: L -> bool): K -> bool {
    x => f(x).Some? && p(f(x).value)
  }

  function Then<K, L, M>(f: K -> Option<L>, g: L -> Option<M>): K -> Option<M> {
    x => match f(x) case None => None case Some(l) => g(l)
  }

  ghost predicate HasKey<K>(rs: seq<Rec<K>>, k: K) {
    exists i :: 0 <= i < |rs| && rs[i].key == k
  }

  ghost predicate Distinct<K>(rs: seq<Rec<K>>) {
    forall i, j :: 0 <= i < j < |rs| ==> rs[i].key != rs[j].key
  }

  ghost predicate Positive<K>(rs: seq<Rec<K>>) {
    forall i :: 0 <= i < |rs| ==> rs[i].value > 0
  }

  // ----- Total -----

  lemma TotalOne<K>(r: Rec<K>, p: K -> bool)
    ensures Total([r], p) == if p(r.key) then r.value else 0
  {
    assert [r][..0] == [];
  }

  lemma {:induction false} TotalConcat<K>(a: seq<Rec<K>>, b: seq<Rec<K>>, p: K -> bool)
    ensures Total(a + b, p) == Total(a, p) + Total(b, p)
  {
    if b == [] {
      assert a + b == a;
    } else {
      assert (a + b)[..|a + b| - 1] == a + b[..|b| - 1];
      TotalConcat(a, b[..|b| - 1], p);
    }
  }

  lemma {:induction false} TotalSame<K>(rs: seq<Rec<K>>, p: K -> bool, q: K -> bool)
    requires forall i :: 0 <= i < |rs| ==> p(rs[i].key) == q(rs[i].key)
    ensures Total(rs, p) == Total(rs, q)
  {
    if rs != [] {
      TotalSame(rs[..|rs| - 1], p, q);
    }
  }

  lemma {:induction false} TotalPositive<K>(rs: seq<Rec<K>>, p: K -> bool)
    requires Positive(rs)
    ensures Total(rs, p) > 0 <==> exists i :: 0 <= i < |rs| && p(rs[i].key)
  {
    if rs != [] {
      var init := rs[..|rs| - 1];
      TotalPositive(init, p);
      if i :| 0 <= i < |rs| && p(rs[i].key) {
        assert i < |init| ==> p(init[i].key);
      }
    }
  }

  lemma {:induction false} TotalNone<K>(rs: seq<Rec<K>>, p: K -> bool)
    requires forall i :: 0 <= i < |rs| ==> !p(rs[i].key)
    ensures Total(rs, p) == 0
  {
    if rs != [] {
      TotalNone(rs[..|rs| - 1], p);
    }
  }

  /** p is included in q, so the p-sum is at most the q-sum, and the rest is the sum over q && !p. */
  lemma {:induction false} TotalSplit<K>(rs: seq<Rec<K>>, p: K -> bool, q: K -> bool, d: K -> bool)
    requires forall i :: 0 <= i < |rs| ==> (q(rs[i].key) <==> p(rs[i].key) || d(rs[i].key))
    requires forall i :: 0 <= i < |rs| ==> !(p(rs[i].key) && d(rs[i].key))
    ensures Total(rs, q) == Total(rs, p) + Total(rs, d)
  {
    if rs != [] {
      TotalSplit(rs[..|rs| - 1], p, q, d);
    }
  }

  /** A total does not depend on the order of the records. */
  lemma {:induction false} TotalPermuted<K>(a: seq<Rec<K>>, b: seq<Rec<K>>, p: K -> bool)
    requires multiset(a) == multiset(b)
    ensures Total(a, p) == Total(b, p)
  {
    if a == [] {
      assert |multiset(b)| == 0;
    } else {
      var init, last := a[..|a| - 1], a[|a| - 1];
      assert a == init + [last];
      assert last in multiset(b) by {
        assert last in multiset(a);
      }
      var x, y := SplitAround(b, last);
      RemoveTotal(x, last, y, p);
      RemoveMultiset(x, last, y);
      assert multiset(init) == multiset(a) - multiset{last};
      TotalPermuted(init, x + y, p);
    }
  }

  lemma SplitAround<T>(b: seq<T>, r: T) returns (x: seq<T>, y: seq<T>)
    requires r in b
    ensures b == x + ([r] + y)
  {
    var i :| 0 <= i < |b| && b[i] == r;
    x, y := b[..i], b[i + 1..];
  }

  lemma RemoveMultiset<T>(x: seq<T>, r: T, y: seq<T>)
    ensures multiset(x + y) == multiset(x + ([r] + y)) - multiset{r}
  {
    assert multiset(x + ([r] + y)) == multiset(x) + (multiset{r} + multiset(y));
  }

  lemma RemoveTotal<K>(x: seq<Rec<K>>, r: Rec<K>, y: seq<Rec<K>>, p: K -> bool)
    ensures Total(x + ([r] + y), p) == Total(x + y, p) + if p(r.key) then r.value else 0
  {
    TotalConcat(x, [r] + y, p);
    TotalConcat([r], y, p);
    TotalConcat(x, y, p);
    TotalOne(r, p);
  }

  // ----- Project -----

  lemma {:induction false} ProjectConcat<K, L>(a: seq<Rec<K>>, b: seq<Rec<K>>, f: K -> Option<L>)
    ensures Project(a + b, f) == Project(a, f) + Project(b, f)
  {
    if b == [] {
      assert a + b == a;
    } else {
      assert (a + b)[..|a + b| - 1] == a + b[..|b| - 1];
      ProjectConcat(a, b[..|b| - 1], f);
    }
  }

  lemma {:induction false} ProjectSame<K, L>(rs: seq<Rec<K>>, f: K -> Option<L>, g: K -> Option<L>)
    requires forall i :: 0 <= i < |rs| ==> f(rs[i].key) == g(rs[i].key)
    ensures Project(rs, f) == Project(rs, g)
  {
    if rs != [] {
      ProjectSame(rs[..|rs| - 1], f, g);
    }
  }

  lemma {:induction false} ProjectNone<K, L>(rs: seq<Rec<K>>, f: K -> Option<L>)
    requires forall i :: 0 <= i < |rs| ==> f(rs[i].key).None?
    ensures Project(rs, f) == []
  {
    if rs != [] {
      ProjectNone(rs[..|rs| - 1], f);
    }
  }

  /** A projection that changes no key of rs keeps rs. */
  lemma {:induction false} ProjectId<K>(rs: seq<Rec<K>>, f: K -> Option<K>)
    requires forall i :: 0 <= i < |rs| ==> f(rs[i].key) == Some(rs[i].key)
    ensures Project(rs, f) == rs
  {
    if rs != [] {
      ProjectId(rs[..|rs| - 1], f);
      assert rs == rs[..|rs| - 1] + [rs[|rs| - 1]];
    }
  }

  lemma {:induction false} ProjectThen<K, L, M>(rs: seq<Rec<K>>, f: K -> Option<L>, g: L -> Option<M>)
    ensures Project(Project(rs, f), g) == Project(rs, Then(f, g))
  {
    if rs != [] {
      var init, last := rs[..|rs| - 1], rs[|rs| - 1];
      ProjectThen(init, f, g);
      match f(last.key)
      case None =>
        assert Project(rs, f) == Project(init, f);
      case Some(l) =>
        ProjectConcat(Project(init, f), [Rec(l, last.value)], g);
        assert [Rec(l, last.value)][..0] == [];
    }
  }

  lemma {:induction false} ProjectTotal<K, L>(rs: seq<Rec<K>>, f: K -> Option<L>, p: L -> bool)
    ensures Total(Project(rs, f), p) == Total(rs, Pull(f, p))
  {
    if rs != [] {
      var init, last := rs[..|rs| - 1], rs[|rs| - 1];
      ProjectTotal(init, f, p);
      match f(last.key)
      case None =>
        assert Project(rs, f) == Project(init, f);
      case Some(l) =>
        TotalConcat(Project(init, f), [Rec(l, last.value)], p);
        TotalOne(Rec(l, last.value), p);
    }
  }

  /** Every projected record comes from a record of the source with the same value. */
  lemma {:induction false} ProjectOrigin<K, L>(rs: seq<Rec<K>>, f: K -> Option<L>, j: nat) returns (i: nat)
    requires j < |Project(rs, f)|
    ensures i < |rs| && f(rs[i].key) == Some(Project(rs, f)[j].key) && rs[i].value == Project(rs, f)[j].value
  {
    var init := rs[..|rs| - 1];
    if j < |Project(init, f)| {
      i := ProjectOrigin(init, f, j);
    } else {
      i := |rs| - 1;
    }
  }

  /** Every record that f keeps is in the projection. */
  lemma {:induction false} ProjectImage<K, L>(rs: seq<Rec<K>>, f: K -> Option<L>, i: nat) returns (j: nat)
    requires i < |rs| && f(rs[i].key).Some?
    ensures j < |Project(rs, f)| && Project(rs, f)[j] == Rec(f(rs[i].key).value, rs[i].value)
  {
    var init := rs[..|rs| - 1];
    if i < |init| {
      j := ProjectImage(init, f, i);
    } else {
      j := |Project(init, f)|;
    }
  }

  lemma ProjectHasKey<K, L>(rs: seq<Rec<K>>, f: K -> Option<L>, l: L)
    ensures HasKey(Project(rs, f), l) <==> exists i :: 0 <= i < |rs| && f(rs[i].key) == Some(l)
  {
    if HasKey(Project(rs, f), l) {
      var j :| 0 <= j < |Project(rs, f)| && Project(rs, f)[j].key == l;
      var i := ProjectOrigin(rs, f, j);
    }
    if i :| 0 <= i < |rs| && f(rs[i].key) == Some(l) {
      var j := ProjectImage(rs, f, i);
    }
  }

  lemma ProjectPositive<K, L>(rs: seq<Rec<K>>, f: K -> Option<L>)
    requires Positive(rs)
    ensures Positive(Project(rs, f))
  {
    forall j | 0 <= j < |Project(rs, f)| ensures Project(rs, f)[j].value > 0 {
      var i := ProjectOrigin(rs, f, j);
    }
  }

  /** Length of a projection: the number of records it keeps. */
  lemma {:induction false} ProjectAll<K, L>(rs: seq<Rec<K>>, f: K -> Option<L>)
    requires forall i :: 0 <= i < |rs| ==> f(rs[i].key).Some?
    ensures |Project(rs, f)| == |rs|
    ensures forall i :: 0 <= i < |rs| ==> Project(rs, f)[i] == Rec(f(rs[i].key).value, rs[i].value)
  {
    if rs != [] {
      ProjectAll(rs[..|rs| - 1], f);
    }
  }

  // ----- Group -----

  lemma {:induction false} AddTotal<K>(gs: seq<Rec<K>>, r: Rec<K>, p: K -> bool)
    ensures Total(Add(gs, r), p) == Total(gs, p) + if p(r.key) then r.value else 0
  {
    if gs == [] {
      TotalOne(r, p);
    } else {
      var init, last := gs[..|gs| - 1], gs[|gs| - 1];
      if last.key == r.key {
        assert Add(gs, r)[..|gs| - 1] == init;
      } else {
        AddTotal(init, r, p);
        assert Add(gs, r)[..|Add(gs, r)| - 1] == Add(init, r);
      }
    }
  }

  lemma {:induction false} AddKeys<K>(gs: seq<Rec<K>>, r: Rec<K>)
    requires Distinct(gs)
    ensures Distinct(Add(gs, r))
    ensures forall k :: HasKey(Add(gs, r), k) <==> HasKey(gs, k) || k == r.key
    ensures Positive(gs) && r.value > 0 ==> Positive(Add(gs, r))
  {
    if gs != [] {
      var init, last := gs[..|gs| - 1], gs[|gs| - 1];
      var res := Add(gs, r);
      AddKeys(init, r);
      if last.key == r.key {
        forall k ensures HasKey(res, k) <==> HasKey(gs, k) || k == r.key {
          if HasKey(gs, k) {
            var i :| 0 <= i < |gs| && gs[i].key == k;
            assert res[i].key == k;
          }
          assert res[|res| - 1].key == r.key;
          if HasKey(res, k) {
            var i :| 0 <= i < |res| && res[i].key == k;
            assert gs[i].key == k;
          }
        }
      } else {
        assert !HasKey(init, last.key);
        assert !HasKey(Add(init, r), last.key);
        forall k ensures HasKey(res, k) <==> HasKey(gs, k) || k == r.key {
          assert HasKey(gs, k) <==> HasKey(init, k) || k == last.key by {
            if HasKey(gs, k) {
              var i :| 0 <= i < |gs| && gs[i].key == k;
              assert i < |init| ==> init[i].key == k;
            }
            if HasKey(init, k) {
              var i :| 0 <= i < |init| && init[i].key == k;
              assert gs[i].key == k;
            }
          }
          var pre := Add(init, r);
          assert HasKey(res, k) <==> HasKey(pre, k) || k == last.key by {
            if HasKey(res, k) {
              var i :| 0 <= i < |res| && res[i].key == k;
              assert i < |pre| ==> pre[i].key == k;
            }
            if HasKey(pre, k) {
              var i :| 0 <= i < |pre| && pre[i].key == k;
              assert res[i].key == k;
            }
            assert res[|pre|].key == last.key;
          }
        }
      }
    } else {
      assert Add(gs, r)[0].key == r.key;
    }
  }

  lemma {:induction false} GroupKeepsTotals<K>(rs: seq<Rec<K>>, p: K -> bool)
    ensures Total(Group(rs), p) == Total(rs, p)
  {
    if rs != [] {
      GroupKeepsTotals(rs[..|rs| - 1], p);
      AddTotal(Group(rs[..|rs| - 1]), rs[|rs| - 1], p);
    }
  }

  lemma {:induction false} GroupKeys<K>(rs: seq<Rec<K>>)
    ensures Distinct(Group(rs))
    ensures forall k :: HasKey(Group(rs), k) <==> HasKey(rs, k)
    ensures Positive(rs) ==> Positive(Group(rs))
  {
    if rs != [] {
      var init, last := rs[..|rs| - 1], rs[|rs| - 1];
      GroupKeys(init);
      AddKeys(Group(init), last);
      forall k ensures HasKey(Group(rs), k) <==> HasKey(rs, k) {
        if HasKey(rs, k) {
          var i :| 0 <= i < |rs| && rs[i].key == k;
          assert i < |init| ==> init[i].key == k;
        }
        if HasKey(init, k) {
          var i :| 0 <= i < |init| && init[i].key == k;
          assert rs[i].key == k;
        }
      }
    }
  }

  /** In a list with distinct keys, a record's value is the total of its key. */
  lemma {:induction false} DistinctValue<K>(rs: seq<Rec<K>>, i: nat)
    requires Distinct(rs) && i < |rs|
    ensures Total(rs, Is(rs[i].key)) == rs[i].value
  {
    var init, p := rs[..|rs| - 1], Is(rs[i].key);
    if i < |init| {
      DistinctValue(init, i);
    } else {
      TotalNone(init, p);
    }
  }

  /** A group row is exactly a present key with the total of its key. */
  lemma GroupRow<K>(rs: seq<Rec<K>>, r: Rec<K>)
    ensures r in Group(rs) <==> HasKey(rs, r.key) && r.value == Total(rs, Is(r.key))
  {
    GroupKeys(rs);
    GroupKeepsTotals(rs, Is(r.key));
    if HasKey(rs, r.key) {
      var i :| 0 <= i < |Group(rs)| && Group(rs)[i].key == r.key;
      DistinctValue(Group(rs), i);
    }
    if r in Group(rs) {
      var i :| 0 <= i < |Group(rs)| && Group(rs)[i] == r;
      DistinctValue(Group(rs), i);
    }
  }

  /** Two lists with equal totals on every key, and no zero rows, group to the same rows. */
  lemma SameGroups<K>(a: seq<Rec<K>>, b: seq<Rec<K>>)
    requires Positive(a) && Positive(b)
    requires forall k :: Total(a, Is(k)) == Total(b, Is(k))
    ensures forall r :: r in Group(a) <==> r in Group(b)
  {
    forall r ensures r in Group(a) <==> r in Group(b) {
      GroupRow(a, r);
      GroupRow(b, r);
      TotalPositive(a, Is(r.key));
      TotalPositive(b, Is(r.key));
      assert Is(r.key)(r.key);
    }
  }

  lemma RemoveDistinct<K>(x: seq<Rec<K>>, r: Rec<K>, y: seq<Rec<K>>)
    requires Distinct(x + ([r] + y))
    ensures Distinct(x + y) && r !in x + y
    ensures forall z :: z in x + ([r] + y) <==> z in x + y || z == r
  {
    var whole := x + ([r] + y);
    forall i | 0 <= i < |x + y| ensures (x + y)[i] == whole[if i < |x| then i else i + 1] {}
    assert whole[|x|] == r;
  }

  lemma HasMember<T>(b: seq<T>)
    ensures b != [] ==> exists x :: x in b
  {
    if b != [] {
      assert b[0] in b;
    }
  }

  /** Two lists of the same rows with distinct keys have the same totals. */
  lemma {:induction false} SameRowsTotal<K>(a: seq<Rec<K>>, b: seq<Rec<K>>, p: K -> bool)
    requires Distinct(a) && Distinct(b) && forall r :: r in a <==> r in b
    ensures Total(a, p) == Total(b, p)
  {
    if a == [] {
      HasMember(b);
    } else {
      var init, last := a[..|a| - 1], a[|a| - 1];
      assert last in a && a == init + [last];
      var x, y := SplitAround(b, last);
      RemoveTotal(x, last, y, p);
      RestIsSame(init, x, last, y);
      SameRowsTotal(init, x + y, p);
    }
  }

  lemma RestIsSame<K>(init: seq<Rec<K>>, x: seq<Rec<K>>, last: Rec<K>, y: seq<Rec<K>>)
    requires Distinct(init + [last]) && Distinct(x + ([last] + y))
    requires forall r :: r in init + [last] <==> r in x + ([last] + y)
    ensures Distinct(init) && Distinct(x + y) && forall r :: r in init <==> r in x + y
  {
    assert init + ([last] + []) == init + [last] && init + [] == init;
    RemoveDistinct(x, last, y);
    RemoveDistinct(init, last, []);
  }

  /** Lists with equal totals on every key, and no zero rows, have equal totals on every predicate. */
  lemma KeysDetermineTotals<K>(a: seq<Rec<K>>, b: seq<Rec<K>>, p: K -> bool)
    requires Positive(a) && Positive(b)
    requires forall k :: Total(a, Is(k)) == Total(b, Is(k))
    ensures Total(a, p) == Total(b, p)
  {
    SameGroups(a, b);
    GroupKeys(a);
    GroupKeys(b);
    SameRowsTotal(Group(a), Group(b), p);
    GroupKeepsTotals(a, p);
    GroupKeepsTotals(b, p);
  }
}
