/** Reference resolution: a recipe's `ingredientsId` looked up, one by one, in
    the current ingredient snapshot; ids that match nothing are dropped. The
    client computes it as `ids.map(id => all.find(i => i._id === id))` followed
    by `.filter(Boolean)`, and this module keeps those two stages. */
module Resolution {
  import opened Domain

  /** `k` is the earliest position of `all` whose `_id` is `id`. */
  ghost predicate FirstMatch(all: seq<Ingredient>, id: string, k: int) {
    && 0 <= k < |all|
    && all[k]._id == id
    && forall j :: 0 <= j < k ==> all[j]._id != id
  }

  /** Some ingredient of the snapshot carries `id`. */
  ghost predicate Known(all: seq<Ingredient>, id: string) {
    exists k :: 0 <= k < |all| && all[k]._id == id
  }

  /** `all.find(i => i._id === id)`: the first ingredient whose `_id` is `id`. */
  function Find(all: seq<Ingredient>, id: string): (r: Option<Ingredient>)
    ensures r.None? <==> !Known(all, id)
    ensures r.Some? ==> exists k :: FirstMatch(all, id, k) && all[k] == r.value
  {
    if |all| == 0 then None
    else if all[0]._id == id then
      assert FirstMatch(all, id, 0);
      Some(all[0])
    else
      var r := Find(all[1..], id);
      if r.Some? then
        assert exists k :: FirstMatch(all, id, k) && all[k] == r.value by {
          var k :| FirstMatch(all[1..], id, k) && all[1..][k] == r.value;
          assert FirstMatch(all, id, k + 1);
        }
        r
      else
        assert !Known(all, id) by {
          forall k | 0 <= k < |all| ensures all[k]._id != id {
            if k > 0 { assert all[1..][k - 1] == all[k]; }
          }
        }
        r
  }

  /** The `map` stage: one lookup per listed id, in the listed order. */
  function Lookups(ids: seq<string>, all: seq<Ingredient>): (r: seq<Option<Ingredient>>)
    ensures |r| == |ids|
    ensures forall i :: 0 <= i < |ids| ==> r[i] == Find(all, ids[i])
  {
    seq(|ids|, i requires 0 <= i < |ids| => Find(all, ids[i]))
  }

  /** The `filter(Boolean)` stage: keep the found ingredients, in order. */
  function Present(opts: seq<Option<Ingredient>>): (r: seq<Ingredient>)
    ensures |r| <= |opts|
  {
    if |opts| == 0 then []
    else match opts[0]
      case Some(x) => [x] + Present(opts[1..])
      case None => Present(opts[1..])
  }

  /** The ingredients a recipe row lists for `ids` against the snapshot `all`. */
  function Resolve(ids: seq<string>, all: seq<Ingredient>): (r: seq<Ingredient>)
    ensures |r| <= |ids|
  {
    Present(Lookups(ids, all))
  }

  /** The snapshot after every ingredient with `_id == d` is taken out of it. */
  function DropId(s: seq<Ingredient>, d: string): (r: seq<Ingredient>)
    ensures forall x :: x in r <==> x in s && x._id != d
  {
    if |s| == 0 then []
    else if s[0]._id == d then DropId(s[1..], d)
    else [s[0]] + DropId(s[1..], d)
  }

  /** How many of the listed ids find a match in the snapshot. */
  function KnownCount(ids: seq<string>, all: seq<Ingredient>): (n: nat) {
    if |ids| == 0 then 0
    else (if Find(all, ids[0]).Some? then 1 else 0) + KnownCount(ids[1..], all)
  }

  // ---------------------------------------------------------------------------
  // Structure: resolution is the order-preserving concatenation of the
  // resolutions of the single ids.

  lemma {:induction false} PresentAppend(a: seq<Option<Ingredient>>, b: seq<Option<Ingredient>>)
    ensures Present(a + b) == Present(a) + Present(b)
    decreases |a|
  {
    if |a| == 0 {
      assert a + b == b;
    } else {
      assert (a + b)[0] == a[0];
      assert (a + b)[1..] == a[1..] + b;
      PresentAppend(a[1..], b);
    }
  }

  lemma LookupsAppend(a: seq<string>, b: seq<string>, all: seq<Ingredient>)
    ensures Lookups(a + b, all) == Lookups(a, all) + Lookups(b, all)
  {
  }

  /** A single id resolves to its first match, or to nothing. */
  lemma ResolveSingle(id: string, all: seq<Ingredient>)
    ensures Resolve([id], all) == (match Find(all, id)
                                   case Some(x) => [x]
                                   case None => [])
  {
    var l := Lookups([id], all);
    assert l == [Find(all, id)];
    assert l[1..] == [];
  }

  /** Resolution keeps the relative order of the listed ids: the resolution of
      a concatenation is the concatenation of the resolutions. */
  lemma ResolveAppend(a: seq<string>, b: seq<string>, all: seq<Ingredient>)
    ensures Resolve(a + b, all) == Resolve(a, all) + Resolve(b, all)
  {
    LookupsAppend(a, b, all);
    PresentAppend(Lookups(a, all), Lookups(b, all));
  }

  /** Peeling the first id off the list. */
  lemma ResolveCons(ids: seq<string>, all: seq<Ingredient>)
    requires |ids| > 0
    ensures Resolve(ids, all) == Resolve([ids[0]], all) + Resolve(ids[1..], all)
  {
    assert ids == [ids[0]] + ids[1..];
    ResolveAppend([ids[0]], ids[1..], all);
  }

  // ---------------------------------------------------------------------------
  // Contents, length and multiplicity.

  /** An ingredient is listed exactly when it is the first match of a listed id;
      a shadowed duplicate `_id` later in the snapshot is never listed. */
  lemma {:induction false} ResolveMember(ids: seq<string>, all: seq<Ingredient>, x: Ingredient)
    ensures x in Resolve(ids, all) <==> x._id in ids && Find(all, x._id) == Some(x)
    decreases |ids|
  {
    if |ids| > 0 {
      ResolveCons(ids, all);
      ResolveSingle(ids[0], all);
      ResolveMember(ids[1..], all, x);
      assert ids == [ids[0]] + ids[1..];
    }
  }

  /** Every listed ingredient belongs to the snapshot and its `_id` is listed. */
  lemma ResolveSound(ids: seq<string>, all: seq<Ingredient>)
    ensures forall x :: x in Resolve(ids, all) ==> x in all && x._id in ids
  {
    forall x | x in Resolve(ids, all) ensures x in all && x._id in ids {
      ResolveMember(ids, all, x);
    }
  }

  /** One entry per listed id that has a match: unmatched ids are dropped
      without error and matched ones are never merged. */
  lemma {:induction false} ResolveLength(ids: seq<string>, all: seq<Ingredient>)
    ensures |Resolve(ids, all)| == KnownCount(ids, all)
    decreases |ids|
  {
    if |ids| > 0 {
      ResolveCons(ids, all);
      ResolveSingle(ids[0], all);
      ResolveLength(ids[1..], all);
    }
  }

  /** How many entries of `s` are `v`. */
  function Count<T(==)>(s: seq<T>, v: T): (n: nat)
    decreases |s|
  {
    if |s| == 0 then 0 else (if s[0] == v then 1 else 0) + Count(s[1..], v)
  }

  lemma {:induction false} CountAppend<T>(a: seq<T>, b: seq<T>, v: T)
    ensures Count(a + b, v) == Count(a, v) + Count(b, v)
    decreases |a|
  {
    if |a| == 0 {
      assert a + b == b;
    } else {
      assert (a + b)[1..] == a[1..] + b;
      CountAppend(a[1..], b, v);
    }
  }

  /** No deduplication: an ingredient that is the first match of its `_id`
      appears as many times as that `_id` is listed. */
  lemma {:induction false} ResolveMultiplicity(ids: seq<string>, all: seq<Ingredient>, x: Ingredient)
    requires Find(all, x._id) == Some(x)
    ensures Count(Resolve(ids, all), x) == Count(ids, x._id)
    decreases |ids|
  {
    if |ids| > 0 {
      ResolveCons(ids, all);
      ResolveSingle(ids[0], all);
      ResolveMultiplicity(ids[1..], all, x);
      var head := Resolve([ids[0]], all);
      CountAppend(head, Resolve(ids[1..], all), x);
      if ids[0] == x._id {
        assert head == [x];
      } else {
        assert x !in head;
      }
      assert Count(head, x) == if ids[0] == x._id then 1 else 0 by {
        if |head| > 0 { assert head[1..] == []; }
      }
    }
  }

  /** An id with no match contributes nothing, wherever it is listed. */
  lemma UnknownIdDropped(a: seq<string>, id: string, b: seq<string>, all: seq<Ingredient>)
    requires !Known(all, id)
    ensures Resolve(a + [id] + b, all) == Resolve(a + b, all)
  {
    ResolveAppend(a + [id], b, all);
    ResolveAppend(a, [id], all);
    ResolveSingle(id, all);
    ResolveAppend(a, b, all);
  }

  // ---------------------------------------------------------------------------
  // Dependence on the snapshot.

  lemma {:induction false} FindDropId(all: seq<Ingredient>, d: string, id: string)
    ensures Find(DropId(all, d), id) == if id == d then None else Find(all, id)
    decreases |all|
  {
    if |all| > 0 {
      FindDropId(all[1..], d, id);
      if all[0]._id != d {
        var t := [all[0]] + DropId(all[1..], d);
        assert t[1..] == DropId(all[1..], d);
      }
    }
  }

  /** Removing an ingredient from the snapshot removes it, and only it, from
      every resolution; the listed ids themselves are an input and stay as
      they are. */
  lemma {:induction false} ResolveAfterDrop(ids: seq<string>, all: seq<Ingredient>, d: string)
    ensures Resolve(ids, DropId(all, d)) == DropId(Resolve(ids, all), d)
    decreases |ids|
  {
    if |ids| > 0 {
      ResolveCons(ids, all);
      ResolveCons(ids, DropId(all, d));
      ResolveSingle(ids[0], all);
      ResolveSingle(ids[0], DropId(all, d));
      FindDropId(all, d, ids[0]);
      ResolveAfterDrop(ids[1..], all, d);
      DropIdAppend(Resolve([ids[0]], all), Resolve(ids[1..], all), d);
      var x := Find(all, ids[0]);
      if x.Some? {
        assert x.value._id == ids[0] by { ResolveMember([ids[0]], all, x.value); }
        assert [x.value][1..] == [];
      }
    }
  }

  lemma {:induction false} DropIdAppend(a: seq<Ingredient>, b: seq<Ingredient>, d: string)
    ensures DropId(a + b, d) == DropId(a, d) + DropId(b, d)
    decreases |a|
  {
    if |a| == 0 {
      assert a + b == b;
    } else {
      assert (a + b)[0] == a[0];
      assert (a + b)[1..] == a[1..] + b;
      DropIdAppend(a[1..], b, d);
    }
  }

  /** Resolution only looks ingredients up by `_id`: two snapshots that agree
      on every first match give the same list. */
  lemma {:induction false} ResolveDependsOnFirstMatches(ids: seq<string>, all: seq<Ingredient>, all': seq<Ingredient>)
    requires forall id :: id in ids ==> Find(all, id) == Find(all', id)
    ensures Resolve(ids, all) == Resolve(ids, all')
    decreases |ids|
  {
    if |ids| > 0 {
      ResolveCons(ids, all);
      ResolveCons(ids, all');
      ResolveSingle(ids[0], all);
      ResolveSingle(ids[0], all');
      ResolveDependsOnFirstMatches(ids[1..], all, all');
    }
  }
}
