/** The order in which Python compares strings. */
module StringOrder {

  predicate Less(a: string, b: string) {
    b != "" && (a == "" || a[0] < b[0] || (a[0] == b[0] && Less(a[1..], b[1..])))
  }

  lemma {:induction false} LessTotal(a: string, b: string)
    ensures Less(a, b) || a == b || Less(b, a)
  {
    if a != "" && b != "" && a[0] == b[0] {
      LessTotal(a[1..], b[1..]);
      assert a == [a[0]] + a[1..] && b == [b[0]] + b[1..];
    }
  }

  lemma {:induction false} LessAsymmetric(a: string, b: string)
    ensures !(Less(a, b) && Less(b, a))
  {
    if a != "" && b != "" && a[0] == b[0] {
      LessAsymmetric(a[1..], b[1..]);
    }
  }

  lemma {:induction false} LessTransitive(a: string, b: string, c: string)
    requires Less(a, b) && Less(b, c)
    ensures Less(a, c)
  {
    if a != "" && a[0] == b[0] == c[0] {
      LessTransitive(a[1..], b[1..], c[1..]);
    }
  }

  lemma {:induction false} LessAfterPrefix(prefix: string, a: string, b: string)
    ensures Less(prefix + a, prefix + b) <==> Less(a, b)
  {
    if prefix == "" {
      assert prefix + a == a && prefix + b == b;
    } else {
      assert (prefix + a)[1..] == prefix[1..] + a && (prefix + b)[1..] == prefix[1..] + b;
      LessAfterPrefix(prefix[1..], a, b);
    }
  }
}

/** Products, one factor at a time. */
module Products {
  lemma ProductStep(n: int, c: int)
    ensures (n + 1) * c == n * c + c
  {
  }

  lemma {:induction false} ProductGrows(a: int, b: int, c: nat)
    requires a <= b
    ensures a * c <= b * c
    decreases b - a
  {
    if a < b {
      ProductStep(a, c);
      ProductGrows(a + 1, b, c);
    }
  }
}

/** Finite sets of integers. */
module IntSets {
  ghost predicate IsLeast(s: int, todo: set<int>) { s in todo && forall t :: t in todo ==> s <= t }

  lemma {:induction false} LeastExists(todo: set<int>)
    requires exists s :: s in todo
    ensures exists s :: IsLeast(s, todo)
    decreases |todo|
  {
    var x :| x in todo;
    var rest := todo - {x};
    if exists s :: s in rest {
      LeastExists(rest);
      var s :| IsLeast(s, rest);
      var least := if x < s then x else s;
      assert IsLeast(least, todo) by {
        forall t | t in todo ensures least <= t { assert t == x || t in rest; }
      }
    } else {
      assert IsLeast(x, todo) by {
        forall t | t in todo ensures x <= t { assert t == x || t in rest; }
      }
    }
  }
}
