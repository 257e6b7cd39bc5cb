/**
 Row identities.  UUIDs and runtime-v3 identities are only ever compared for
 equality, except by `ORDER BY created_at, operation_id LIMIT 1`; since
 `created_at` is one constant, that query selects the bytewise least identity.
 */
module Identity {

  datatype Id = Id(text: string)

  /** SQLite's bytewise order of TEXT columns. */
  predicate TextAtMost(a: string, b: string)
  {
    a == "" || (b != "" && (a[0] < b[0] || (a[0] == b[0] && TextAtMost(a[1..], b[1..]))))
  }

  predicate AtMost(a: Id, b: Id) {
    TextAtMost(a.text, b.text)
  }

  predicate IsLeast(x: Id, ids: set<Id>) {
    x in ids && forall y :: y in ids ==> AtMost(x, y)
  }

  lemma {:induction false} TextAntisymmetric(a: string, b: string)
    requires TextAtMost(a, b) && TextAtMost(b, a)
    ensures a == b
  {
    if a != "" {
      TextAntisymmetric(a[1..], b[1..]);
      assert a == [a[0]] + a[1..] && b == [b[0]] + b[1..];
    }
  }

  lemma {:induction false} TextTotal(a: string, b: string)
    ensures TextAtMost(a, b) || TextAtMost(b, a)
  {
    if a != "" && b != "" {
      TextTotal(a[1..], b[1..]);
    }
  }

  lemma {:induction false} TextTransitive(a: string, b: string, c: string)
    requires TextAtMost(a, b) && TextAtMost(b, c)
    ensures TextAtMost(a, c)
  {
    if a != "" && a[0] == b[0] && b[0] == c[0] {
      TextTransitive(a[1..], b[1..], c[1..]);
    }
  }

  lemma {:induction false} LeastExists(ids: set<Id>)
    requires ids != {}
    ensures exists x :: IsLeast(x, ids)
    decreases |ids|
  {
    var x :| x in ids;
    var rest := ids - {x};
    TextTotal(x.text, x.text);
    if rest == {} {
      forall y | y in ids ensures y == x { assert y == x || y in rest; }
      assert IsLeast(x, ids);
    } else {
      LeastExists(rest);
      var y :| IsLeast(y, rest);
      TextTotal(x.text, y.text);
      if AtMost(x, y) {
        forall z | z in ids ensures AtMost(x, z) {
          if z in rest { TextTransitive(x.text, y.text, z.text); }
        }
        assert IsLeast(x, ids);
      } else {
        assert IsLeast(y, ids);
      }
    }
  }

  lemma LeastUnique(x: Id, y: Id, ids: set<Id>)
    requires IsLeast(x, ids) && IsLeast(y, ids)
    ensures x == y
  {
    TextAntisymmetric(x.text, y.text);
  }

  /** The row a query ordered by identity returns first. */
  function Least(ids: set<Id>): (x: Id)
    requires ids != {}
    ensures IsLeast(x, ids)
  {
    LeastExists(ids);
    assert forall x, y | IsLeast(x, ids) && IsLeast(y, ids) :: x == y by {
      forall x, y | IsLeast(x, ids) && IsLeast(y, ids) ensures x == y { LeastUnique(x, y, ids); }
    }
    var x :| x in ids && IsLeast(x, ids);
    x
  }
}
