/** The listing order: documents sorted ascending by `order`, with documents of equal `order`
    kept in their insertion order. */
module ProjectOrder {
  import opened Documents

  predicate SortedByOrder(rs: seq<Record>) {
    forall i, j :: 0 <= i < j < |rs| ==> rs[i].project.order <= rs[j].project.order
  }

  /** The documents of `rs` whose `order` is `v`, in the order they appear. */
  function WithOrder(rs: seq<Record>, v: int): seq<Record> {
    if rs == [] then []
    else (if rs[0].project.order == v then [rs[0]] else []) + WithOrder(rs[1..], v)
  }

  /** Places `x` in front of the first document whose `order` is not smaller than its own. */
  function InsertByOrder(x: Record, s: seq<Record>): seq<Record> {
    if s == [] || x.project.order <= s[0].project.order then [x] + s
    else [s[0]] + InsertByOrder(x, s[1..])
  }

  /** Stable insertion sort by `order` (the store's `sort("order", 1)`). */
  function SortByOrder(rs: seq<Record>): seq<Record> {
    if rs == [] then [] else InsertByOrder(rs[0], SortByOrder(rs[1..]))
  }

  lemma {:induction false} InsertPermutes(x: Record, s: seq<Record>)
    ensures multiset(InsertByOrder(x, s)) == multiset(s) + multiset{x}
  {
    if s != [] && x.project.order > s[0].project.order {
      InsertPermutes(x, s[1..]);
      assert s == [s[0]] + s[1..];
    }
  }

  lemma {:induction false} InsertKeepsSorted(x: Record, s: seq<Record>)
    requires SortedByOrder(s)
    ensures SortedByOrder(InsertByOrder(x, s))
  {
    if s != [] && x.project.order > s[0].project.order {
      var rest := InsertByOrder(x, s[1..]);
      InsertKeepsSorted(x, s[1..]);
      InsertPermutes(x, s[1..]);
      forall i | 0 <= i < |rest| ensures s[0].project.order <= rest[i].project.order {
        assert rest[i] in multiset(s[1..]) + multiset{x};
        if rest[i] != x {
          assert rest[i] in s[1..];
        }
      }
    }
  }

  /** The listing holds exactly the stored documents, each as often as it is stored. */
  lemma {:induction false} SortPermutes(rs: seq<Record>)
    ensures multiset(SortByOrder(rs)) == multiset(rs)
  {
    if rs != [] {
      SortPermutes(rs[1..]);
      InsertPermutes(rs[0], SortByOrder(rs[1..]));
      assert rs == [rs[0]] + rs[1..];
    }
  }

  /** The listing is non-decreasing in `order`. */
  lemma {:induction false} SortIsSorted(rs: seq<Record>)
    ensures SortedByOrder(SortByOrder(rs))
  {
    if rs != [] {
      SortIsSorted(rs[1..]);
      InsertKeepsSorted(rs[0], SortByOrder(rs[1..]));
    }
  }

  lemma {:induction false} InsertWithOrder(x: Record, s: seq<Record>, v: int)
    ensures WithOrder(InsertByOrder(x, s), v) ==
            (if x.project.order == v then [x] else []) + WithOrder(s, v)
  {
    var own: seq<Record> := if x.project.order == v then [x] else [];
    if s == [] || x.project.order <= s[0].project.order {
      var r := [x] + s;
      assert r[0] == x && r[1..] == s;
      assert WithOrder(r, v) == own + WithOrder(s, v);
    } else {
      var head: seq<Record> := if s[0].project.order == v then [s[0]] else [];
      var rest := InsertByOrder(x, s[1..]);
      var r := [s[0]] + rest;
      assert r[0] == s[0] && r[1..] == rest;
      assert WithOrder(r, v) == head + WithOrder(rest, v);
      InsertWithOrder(x, s[1..], v);
      assert WithOrder(s, v) == head + WithOrder(s[1..], v);
      assert head == [] || own == [];
    }
  }

  /** Stability: for every `order` value, the documents carrying it appear in the listing in
      the same relative order as in the store. */
  lemma {:induction false} SortIsStable(rs: seq<Record>, v: int)
    ensures WithOrder(SortByOrder(rs), v) == WithOrder(rs, v)
  {
    if rs != [] {
      SortIsStable(rs[1..], v);
      InsertWithOrder(rs[0], SortByOrder(rs[1..]), v);
    }
  }

  /** A store already in `order` order is listed as it stands. */
  lemma {:induction false} SortedIsUnchanged(rs: seq<Record>)
    requires SortedByOrder(rs)
    ensures SortByOrder(rs) == rs
  {
    if rs != [] {
      assert SortedByOrder(rs[1..]);
      SortedIsUnchanged(rs[1..]);
    }
  }
}
