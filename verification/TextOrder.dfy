/** The order of text keys is a strict total order, so every finite set of them has a least one. */
module TextOrder {
  import opened Base

  lemma {:induction false} TextAsymmetric(a: string, b: string)
    requires TextLess(a, b)
    ensures !TextLess(b, a)
    decreases |a|
  {
    if a != "" && a[0] == b[0] { TextAsymmetric(a[1..], b[1..]); }
  }

  lemma {:induction false} TextTransitive(a: string, b: string, c: string)
    requires TextLess(a, b) && TextLess(b, c)
    ensures TextLess(a, c)
    decreases |a|
  {
    if a != "" && a[0] == b[0] == c[0] { TextTransitive(a[1..], b[1..], c[1..]); }
  }

  lemma {:induction false} TextTotal(a: string, b: string)
    ensures a == b || TextLess(a, b) || TextLess(b, a)
    decreases |a|
  {
    if a != "" && b != "" && a[0] == b[0] {
      TextTotal(a[1..], b[1..]);
      assert a == [a[0]] + a[1..] && b == [b[0]] + b[1..];
    }
  }

  ghost predicate Least(m: Id, ids: set<Id>) {
    m in ids && forall x | x in ids :: x == m || TextLess(m, x)
  }

  lemma LeastOf(ids: set<Id>) returns (m: Id)
    requires ids != {}
    ensures Least(m, ids)
    decreases |ids|
  {
    m :| m in ids;
    var rest := ids - {m};
    if rest != {} {
      var r := LeastOf(rest);
      TextTotal(m, r);
      if TextLess(r, m) {
        m := r;
      } else {
        forall x | x in rest ensures TextLess(m, x) { if x != r { TextTransitive(m, r, x); } }
      }
    }
    forall x | x in ids ensures x == m || TextLess(m, x) { assert x in rest || x !in rest; }
  }
}
