/** Sublists: what stands, in order, at exactly the places of a list where a property holds. */
module Sublists {
  /** `places` are, in order, exactly the places of `all` where `p` holds. */
  ghost predicate Places<S>(places: seq<nat>, all: seq<S>, p: S -> bool) {
    && (forall k, l :: 0 <= k < l < |places| ==> places[k] < places[l])
    && (forall k :: 0 <= k < |places| ==> places[k] < |all| && p(all[places[k]]))
    && (forall i :: 0 <= i < |all| && p(all[i]) ==> i in places)
  }

  ghost predicate At<S, T>(sub: seq<T>, all: seq<S>, f: S -> T, places: seq<nat>) {
    |sub| == |places| && forall k :: 0 <= k < |sub| ==> places[k] < |all| && sub[k] == f(all[places[k]])
  }

  ghost predicate Selects<S, T>(sub: seq<T>, all: seq<S>, p: S -> bool, f: S -> T) {
    exists places :: Places(places, all, p) && At(sub, all, f, places)
  }

  lemma SelectsNothing<S, T>(p: S -> bool, f: S -> T)
    ensures Selects([], [], p, f)
  {
    assert Places([], [], p) && At([], [], f, []);
  }

  lemma OneMorePlace<S>(places: seq<nat>, all: seq<S>, x: S, p: S -> bool)
    requires Places(places, all, p)
    ensures Places(if p(x) then places + [|all|] else places, all + [x], p)
  {
    var more := all + [x];
    assert forall i :: 0 <= i < |all| ==> more[i] == all[i];
    forall i | 0 <= i < |more| && p(more[i])
      ensures i in if p(x) then places + [|all|] else places
    {
      if i < |all| {
        assert p(all[i]) && i in places;
      } else {
        assert (places + [|all|])[|places|] == i;
      }
    }
  }

  lemma OneMoreAt<S, T>(sub: seq<T>, all: seq<S>, x: S, f: S -> T, places: seq<nat>)
    requires At(sub, all, f, places)
    ensures At(sub, all + [x], f, places) && At(sub + [f(x)], all + [x], f, places + [|all|])
  {
    assert forall i :: 0 <= i < |all| ==> (all + [x])[i] == all[i];
    assert (all + [x])[|all|] == x;
    forall k | 0 <= k < |sub|
      ensures places[k] < |all| && (sub + [f(x)])[k] == f(all[places[k]])
    {
      assert sub[k] == f(all[places[k]]);
    }
  }

  lemma OneMore<S, T>(sub: seq<T>, all: seq<S>, x: S, p: S -> bool, f: S -> T)
    requires Selects(sub, all, p, f)
    ensures Selects(sub + (if p(x) then [f(x)] else []), all + [x], p, f)
  {
    var places: seq<nat> :| Places(places, all, p) && At(sub, all, f, places);
    hide Places, At;
    OneMorePlace(places, all, x, p);
    OneMoreAt(sub, all, x, f, places);
    if p(x) {
      assert Places(places + [|all|], all + [x], p);
    } else {
      assert sub + [] == sub;
      assert Places(places, all + [x], p);
    }
  }
}
