/** The keep-newest rule shared by the backup ledger and the run records:
    of the rows in a scope, listed newest first, the first `retain` are kept
    and the rest are deleted by id.

    Rows are kept in insertion order with strictly increasing ids, so the
    repository's "created_at desc" order is the reverse of the scoped
    subsequence. */
module Retention {

  /** Appending one more piece to a log of pieces: the grouping does not
      matter. The loops that extend a call or file log use it at each step. */
  lemma AppendAssoc<T>(a: seq<T>, b: seq<T>, c: seq<T>)
    ensures (a + b) + c == a + (b + c)
  {
  }

  /** The rows `p` selects for the scope `sc`, in their order. */
  function Filter<T(!new), S>(s: seq<T>, sc: S, p: (T, S) -> bool): (r: seq<T>)
    ensures |r| <= |s|
  {
    if |s| == 0 then []
    else Filter(s[..|s| - 1], sc, p) + (if p(s[|s| - 1], sc) then [s[|s| - 1]] else [])
  }

  /** The rows whose id is not in `ids`, in their order. */
  function DropIds<T(!new)>(s: seq<T>, id: T -> nat, ids: set<nat>): (r: seq<T>)
    ensures |r| <= |s|
  {
    if |s| == 0 then []
    else DropIds(s[..|s| - 1], id, ids) + (if id(s[|s| - 1]) !in ids then [s[|s| - 1]] else [])
  }

  function Reverse<T(!new)>(s: seq<T>): (r: seq<T>)
    ensures |r| == |s|
    ensures forall i :: 0 <= i < |s| ==> r[i] == s[|s| - 1 - i]
  {
    seq(|s|, i requires 0 <= i < |s| => s[|s| - 1 - i])
  }

  predicate IdsIncreasing<T(!new)>(s: seq<T>, id: T -> nat)
  {
    forall i, j :: 0 <= i < j < |s| ==> id(s[i]) < id(s[j])
  }

  function IdSet<T(!new)>(s: seq<T>, id: T -> nat): set<nat>
  {
    if |s| == 0 then {} else IdSet(s[..|s| - 1], id) + {id(s[|s| - 1])}
  }

  /** The scoped rows, newest first. */
  function Newest<T(!new), S>(s: seq<T>, sc: S, p: (T, S) -> bool): seq<T>
  {
    Reverse(Filter(s, sc, p))
  }

  /** The entries of a newest-first list that fall beyond `retain`. */
  function Expired<T(!new)>(list: seq<T>, retain: nat): (r: seq<T>)
    ensures |list| <= retain ==> r == []
    ensures |list| > retain ==> r == list[retain..]
  {
    if |list| <= retain then [] else list[retain..]
  }

  function Min(a: nat, b: nat): nat { if a <= b then a else b }

  // ---------------------------------------------------------------------------

  lemma {:induction false} FilterMembers<T(!new), S>(s: seq<T>, sc: S, p: (T, S) -> bool)
    ensures forall x :: x in Filter(s, sc, p) <==> x in s && p(x, sc)
  {
    if |s| > 0 {
      FilterMembers(s[..|s| - 1], sc, p);
      assert s == s[..|s| - 1] + [s[|s| - 1]];
    }
  }

  lemma {:induction false} DropIdsMembers<T(!new)>(s: seq<T>, id: T -> nat, ids: set<nat>)
    ensures forall x :: x in DropIds(s, id, ids) <==> x in s && id(x) !in ids
  {
    if |s| > 0 {
      DropIdsMembers(s[..|s| - 1], id, ids);
      assert s == s[..|s| - 1] + [s[|s| - 1]];
    }
  }

  lemma {:induction false} IdSetMembers<T(!new)>(s: seq<T>, id: T -> nat)
    ensures forall x :: x in s ==> id(x) in IdSet(s, id)
    ensures forall k :: k in IdSet(s, id) ==> exists x :: x in s && id(x) == k
  {
    if |s| > 0 {
      IdSetMembers(s[..|s| - 1], id);
      assert s == s[..|s| - 1] + [s[|s| - 1]];
    }
  }

  /** With increasing ids, a row is determined by its id. */
  lemma IdsUnique<T(!new)>(s: seq<T>, id: T -> nat, x: T, y: T)
    requires IdsIncreasing(s, id) && x in s && y in s && id(x) == id(y)
    ensures x == y
  {
    var i :| 0 <= i < |s| && s[i] == x;
    var j :| 0 <= j < |s| && s[j] == y;
    if i < j {
      assert id(s[i]) < id(s[j]);
    } else if j < i {
      assert id(s[j]) < id(s[i]);
    }
  }

  lemma {:induction false} FilterIncreasing<T(!new), S>(s: seq<T>, sc: S, p: (T, S) -> bool, id: T -> nat)
    requires IdsIncreasing(s, id)
    ensures IdsIncreasing(Filter(s, sc, p), id)
  {
    if |s| > 0 {
      var init := s[..|s| - 1];
      var last := s[|s| - 1];
      FilterIncreasing(init, sc, p, id);
      FilterMembers(init, sc, p);
      var f := Filter(init, sc, p);
      forall x | x in f ensures id(x) < id(last) {
        var i :| 0 <= i < |init| && init[i] == x;
        assert s[i] == x;
      }
      if p(last, sc) {
        var r := f + [last];
        forall i, j | 0 <= i < j < |r| ensures id(r[i]) < id(r[j]) {
          if j == |f| {
            assert r[i] in f;
          } else {
            assert r[i] == f[i] && r[j] == f[j];
          }
        }
      } else {
        assert Filter(s, sc, p) == f;
      }
    }
  }

  /** Appending a row newer than every row keeps the ids increasing. */
  lemma AppendIncreasing<T(!new)>(s: seq<T>, y: T, id: T -> nat)
    requires IdsIncreasing(s, id)
    requires forall x :: x in s ==> id(x) < id(y)
    ensures IdsIncreasing(s + [y], id)
  {
    var r := s + [y];
    forall i, j | 0 <= i < j < |r| ensures id(r[i]) < id(r[j]) {
      if j == |s| {
        assert r[i] in s;
      } else {
        assert r[i] == s[i] && r[j] == s[j];
      }
    }
  }

  /** Deleting rows keeps the ids of the rest increasing. */
  lemma {:induction false} DropIdsIncreasing<T(!new)>(s: seq<T>, id: T -> nat, ids: set<nat>)
    requires IdsIncreasing(s, id)
    ensures IdsIncreasing(DropIds(s, id, ids), id)
  {
    if |s| > 0 {
      var init := s[..|s| - 1];
      var last := s[|s| - 1];
      DropIdsIncreasing(init, id, ids);
      DropIdsMembers(init, id, ids);
      var d := DropIds(init, id, ids);
      forall x | x in d ensures id(x) < id(last) {
        var i :| 0 <= i < |init| && init[i] == x;
        assert s[i] == x;
      }
      if id(last) !in ids {
        AppendIncreasing(d, last, id);
      } else {
        assert DropIds(s, id, ids) == d;
      }
    }
  }

  lemma FilterSnoc<T(!new), S>(s: seq<T>, x: T, sc: S, p: (T, S) -> bool)
    ensures Filter(s + [x], sc, p) == Filter(s, sc, p) + (if p(x, sc) then [x] else [])
  {
    assert (s + [x])[..|s|] == s;
  }

  lemma DropIdsSnoc<T(!new)>(s: seq<T>, x: T, id: T -> nat, ids: set<nat>)
    ensures DropIds(s + [x], id, ids) == DropIds(s, id, ids) + (if id(x) !in ids then [x] else [])
  {
    assert (s + [x])[..|s|] == s;
  }

  /** Filtering by scope and dropping by id commute. */
  lemma {:induction false} FilterDropCommute<T(!new), S>(s: seq<T>, sc: S, p: (T, S) -> bool, id: T -> nat, ids: set<nat>)
    ensures Filter(DropIds(s, id, ids), sc, p) == DropIds(Filter(s, sc, p), id, ids)
  {
    if |s| > 0 {
      var init := s[..|s| - 1];
      var last := s[|s| - 1];
      assert s == init + [last];
      FilterDropCommute(init, sc, p, id, ids);
      var d := DropIds(init, id, ids);
      var f := Filter(init, sc, p);
      var keep := id(last) !in ids;
      var pick := p(last, sc);
      DropIdsSnoc(init, last, id, ids);
      FilterSnoc(init, last, sc, p);
      // Both sides are the common prefix followed by `last` when it is kept
      // and picked, and by nothing otherwise.
      calc {
        Filter(DropIds(s, id, ids), sc, p);
        Filter(d + (if keep then [last] else []), sc, p);
        { if keep { FilterSnoc(d, last, sc, p); } else { assert d + [] == d; } }
        Filter(d, sc, p) + (if keep && pick then [last] else []);
        DropIds(f, id, ids) + (if keep && pick then [last] else []);
        { if pick { DropIdsSnoc(f, last, id, ids); } else { assert f + [] == f; } }
        DropIds(f + (if pick then [last] else []), id, ids);
        DropIds(Filter(s, sc, p), id, ids);
      }
    }
  }

  /** Dropping ids no row carries changes nothing. */
  lemma {:induction false} DropNone<T(!new)>(s: seq<T>, id: T -> nat, ids: set<nat>)
    requires forall x :: x in s ==> id(x) !in ids
    ensures DropIds(s, id, ids) == s
  {
    if |s| > 0 {
      DropNone(s[..|s| - 1], id, ids);
      assert s[..|s| - 1] + [s[|s| - 1]] == s;
    }
  }

  /** Deleting the ids of the `m` oldest rows leaves the rest, in order. */
  lemma {:induction false} DropOldest<T(!new)>(s: seq<T>, id: T -> nat, m: nat)
    requires IdsIncreasing(s, id) && m <= |s|
    ensures DropIds(s, id, IdSet(s[..m], id)) == s[m..]
  {
    if m == |s| {
      assert s[..m] == s;
      DropAllIds(s, id);
    } else {
      var init := s[..|s| - 1];
      var last := s[|s| - 1];
      assert init[..m] == s[..m];
      assert IdsIncreasing(init, id);
      DropOldest(init, id, m);
      NewestNotAmongOldest(s, id, m);
      assert init[m..] + [last] == s[m..];
    }
  }

  lemma DropAllIds<T(!new)>(s: seq<T>, id: T -> nat)
    ensures DropIds(s, id, IdSet(s, id)) == []
  {
    IdSetMembers(s, id);
    DropCovered(s, id, IdSet(s, id));
  }

  lemma {:induction false} DropCovered<T(!new)>(s: seq<T>, id: T -> nat, ids: set<nat>)
    requires forall i :: 0 <= i < |s| ==> id(s[i]) in ids
    ensures DropIds(s, id, ids) == []
  {
    if |s| > 0 {
      DropCovered(s[..|s| - 1], id, ids);
    }
  }

  lemma {:induction false} NewestNotAmongOldest<T(!new)>(s: seq<T>, id: T -> nat, m: nat)
    requires IdsIncreasing(s, id) && m < |s|
    ensures id(s[|s| - 1]) !in IdSet(s[..m], id)
  {
    if m > 0 {
      assert s[..m][..m - 1] == s[..m - 1];
      NewestNotAmongOldest(s, id, m - 1);
      assert id(s[m - 1]) < id(s[|s| - 1]);
    }
  }

  lemma ReverseSlices<T(!new)>(s: seq<T>, k: nat)
    requires k <= |s|
    ensures Reverse(s)[..k] == Reverse(s[|s| - k..])
    ensures Reverse(s)[k..] == Reverse(s[..|s| - k])
  {
    var r := Reverse(s);
    var a := Reverse(s[|s| - k..]);
    var b := Reverse(s[..|s| - k]);
    assert r[..k] == a by {
      forall i | 0 <= i < k ensures r[..k][i] == a[i] {
        assert a[i] == s[|s| - k..][k - 1 - i];
      }
    }
    assert r[k..] == b by {
      forall i | 0 <= i < |s| - k ensures r[k..][i] == b[i] {
        assert b[i] == s[..|s| - k][|s| - k - 1 - i];
      }
    }
  }

  lemma ReverseMembers<T(!new)>(s: seq<T>)
    ensures forall x :: x in Reverse(s) <==> x in s
  {
    var r := Reverse(s);
    forall x | x in s ensures x in r {
      var i :| 0 <= i < |s| && s[i] == x;
      assert r[|s| - 1 - i] == x;
    }
  }

  lemma IdSetSame<T(!new)>(a: seq<T>, b: seq<T>, id: T -> nat)
    requires forall x :: x in a <==> x in b
    ensures IdSet(a, id) == IdSet(b, id)
  {
    IdSetMembers(a, id);
    IdSetMembers(b, id);
  }

  lemma {:induction false} DropIdsTwice<T(!new)>(s: seq<T>, id: T -> nat, a: set<nat>, b: set<nat>)
    ensures DropIds(DropIds(s, id, a), id, b) == DropIds(s, id, a + b)
  {
    if |s| > 0 {
      var init := s[..|s| - 1];
      var last := s[|s| - 1];
      DropIdsTwice(init, id, a, b);
      var d := DropIds(init, id, a);
      if id(last) !in a {
        assert DropIds(s, id, a) == d + [last];
        assert (d + [last])[..|d|] == d;
        if id(last) !in b {
          assert DropIds(d + [last], id, b) == DropIds(d, id, b) + [last];
          assert DropIds(s, id, a + b) == DropIds(init, id, a + b) + [last];
        } else {
          assert DropIds(d + [last], id, b) == DropIds(d, id, b);
          assert DropIds(s, id, a + b) == DropIds(init, id, a + b);
        }
      } else {
        assert DropIds(s, id, a) == d;
        assert DropIds(s, id, a + b) == DropIds(init, id, a + b);
      }
    }
  }

  lemma IdSetAppend<T(!new)>(s: seq<T>, x: T, id: T -> nat)
    ensures IdSet(s + [x], id) == IdSet(s, id) + {id(x)}
  {
    assert (s + [x])[..|s|] == s;
  }

  /** The keep-newest rule: deleting the expired rows of a scope leaves
      exactly the `retain` newest of that scope (all of them when there are
      fewer) and every row outside the scope. */
  lemma PruneKeepsNewest<T(!new), S>(s: seq<T>, sc: S, p: (T, S) -> bool, id: T -> nat, retain: nat)
    requires IdsIncreasing(s, id)
    ensures var list := Newest(s, sc, p);
      var after := DropIds(s, id, IdSet(Expired(list, retain), id));
      Newest(after, sc, p) == list[..Min(retain, |list|)] &&
      |Newest(after, sc, p)| == Min(retain, |list|) &&
      (forall x :: x in s && !p(x, sc) ==> x in after)
  {
    PruneScope(s, sc, p, id, retain);
    PruneOthers(s, sc, p, id, retain);
  }

  lemma PruneScope<T(!new), S>(s: seq<T>, sc: S, p: (T, S) -> bool, id: T -> nat, retain: nat)
    requires IdsIncreasing(s, id)
    ensures var list := Newest(s, sc, p);
      Newest(DropIds(s, id, IdSet(Expired(list, retain), id)), sc, p) == list[..Min(retain, |list|)]
  {
    var f := Filter(s, sc, p);
    var list := Reverse(f);
    var ids := IdSet(Expired(list, retain), id);
    FilterDropCommute(s, sc, p, id, ids);
    if |list| <= retain {
      IdSetMembers(Expired(list, retain), id);
      DropNone(f, id, ids);
      assert list[..|list|] == list;
    } else {
      var m := |f| - retain;
      FilterIncreasing(s, sc, p, id);
      ReverseSlices(f, retain);
      ReverseMembers(f[..m]);
      IdSetSame(list[retain..], f[..m], id);
      DropOldest(f, id, m);
    }
  }

  lemma PruneOthers<T(!new), S>(s: seq<T>, sc: S, p: (T, S) -> bool, id: T -> nat, retain: nat)
    requires IdsIncreasing(s, id)
    ensures var list := Newest(s, sc, p);
      var after := DropIds(s, id, IdSet(Expired(list, retain), id));
      forall x :: x in s && !p(x, sc) ==> x in after
  {
    var f := Filter(s, sc, p);
    var list := Reverse(f);
    var ids := IdSet(Expired(list, retain), id);
    var after := DropIds(s, id, ids);
    IdSetMembers(Expired(list, retain), id);
    DropIdsMembers(s, id, ids);
    ReverseMembers(f);
    FilterMembers(s, sc, p);
    forall x | x in s && !p(x, sc) ensures x in after {
      if id(x) in ids {
        var y :| y in Expired(list, retain) && id(y) == id(x);
        assert y in list;
        IdsUnique(s, id, x, y);
      }
    }
  }
}
