/** Slot keys `(app, replica)` and their `BTreeMap` order. */
module KeyOrder {
  import opened Prelude

  datatype Key = Key(app: string, replica: nat)

  /** Lexicographic comparison of strings, by character. */
  predicate NameLe(a: string, b: string) {
    a == "" || (b != "" && (a[0] < b[0] || (a[0] == b[0] && NameLe(a[1..], b[1..]))))
  }

  predicate KeyLe(a: Key, b: Key) {
    if a.app == b.app then a.replica <= b.replica else NameLe(a.app, b.app)
  }

  lemma {:induction false} NameLeTotal(a: string, b: string)
    ensures NameLe(a, b) || NameLe(b, a)
  {
    if a != "" && b != "" && a[0] == b[0] {
      NameLeTotal(a[1..], b[1..]);
    }
  }

  lemma {:induction false} NameLeAntisymmetric(a: string, b: string)
    requires NameLe(a, b) && NameLe(b, a)
    ensures a == b
  {
    if a != "" {
      NameLeAntisymmetric(a[1..], b[1..]);
      assert a == [a[0]] + a[1..] && b == [b[0]] + b[1..];
    }
  }

  lemma {:induction false} NameLeTransitive(a: string, b: string, c: string)
    requires NameLe(a, b) && NameLe(b, c)
    ensures NameLe(a, c)
  {
    if a != "" && a[0] == b[0] == c[0] {
      NameLeTransitive(a[1..], b[1..], c[1..]);
    }
  }

  lemma KeyLeTransitive(a: Key, b: Key, c: Key)
    requires KeyLe(a, b) && KeyLe(b, c)
    ensures KeyLe(a, c)
  {
    if a.app == c.app && a.app != b.app {
      NameLeAntisymmetric(a.app, b.app);
    } else if a.app != b.app && b.app != c.app {
      NameLeTransitive(a.app, b.app, c.app);
    }
  }

  lemma KeyLeTotal(a: Key, b: Key)
    ensures KeyLe(a, b) || KeyLe(b, a)
  {
    NameLeTotal(a.app, b.app);
  }

  lemma KeyLeAntisymmetric(a: Key, b: Key)
    requires KeyLe(a, b) && KeyLe(b, a)
    ensures a == b
  {
    if a.app != b.app {
      NameLeAntisymmetric(a.app, b.app);
    }
  }

  predicate IsLeast(k: Key, s: set<Key>) {
    k in s && forall l :: l in s ==> KeyLe(k, l)
  }

  lemma {:induction false} LeastExists(s: set<Key>)
    requires s != {}
    ensures exists k :: IsLeast(k, s)
  {
    var x :| x in s;
    if s == {x} {
      assert KeyLe(x, x) by { KeyLeTotal(x, x); }
      assert IsLeast(x, s);
    } else {
      LeastExists(s - {x});
      var y :| IsLeast(y, s - {x});
      KeyLeTotal(x, y);
      KeyLeTotal(x, x);
      var k := if KeyLe(x, y) then x else y;
      forall l | l in s ensures KeyLe(k, l) {
        if l != x && k == x {
          KeyLeTransitive(x, y, l);
        }
      }
      assert IsLeast(k, s);
    }
  }

  lemma LeastUnique(s: set<Key>)
    ensures forall k, l :: IsLeast(k, s) && IsLeast(l, s) ==> k == l
  {
    forall k, l | IsLeast(k, s) && IsLeast(l, s) ensures k == l {
      KeyLeAntisymmetric(k, l);
    }
  }

  function Least(s: set<Key>): (k: Key)
    requires s != {}
    ensures IsLeast(k, s)
  {
    LeastExists(s);
    LeastUnique(s);
    var k :| k in s && IsLeast(k, s);
    k
  }

  /** The keys of a `BTreeMap` in iteration order. */
  function InKeyOrder(s: set<Key>): seq<Key> {
    if s == {} then []
    else
      var k := Least(s);
      [k] + InKeyOrder(s - {k})
  }

  lemma {:induction false} InKeyOrderSorts(s: set<Key>)
    ensures var ks := InKeyOrder(s);
            && (forall k :: k in ks <==> k in s)
            && NoDup(ks)
            && (forall i, j :: 0 <= i < j < |ks| ==> KeyLe(ks[i], ks[j]))
  {
    if s != {} {
      var k := Least(s);
      var rest := InKeyOrder(s - {k});
      InKeyOrderSorts(s - {k});
      forall j | 0 <= j < |rest| ensures rest[j] != k && KeyLe(k, rest[j]) {
        assert rest[j] in rest;
      }
    }
  }
}
