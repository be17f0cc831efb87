/** The order in which the server's maps are walked: std::map keeps its keys sorted by
    std::string's operator<, so a scan that stops at the first match stops at the least
    matching name and a scan that never stops ends on the greatest. */
module NameOrder {

  /** std::string's operator<. */
  predicate Less(a: string, b: string)
    decreases |a|
  {
    && |b| > 0
    && (|a| == 0 || a[0] < b[0] || (a[0] == b[0] && Less(a[1..], b[1..])))
  }

  /** The order of dictionaries: a and b agree up to a position where a ends or has the smaller
      character. */
  predicate Precedes(a: string, b: string) {
    exists i :: 0 <= i <= |a| && i < |b| && a[..i] == b[..i] && (i == |a| || a[i] < b[i])
  }

  lemma AgreeFurther(a: string, b: string, i: nat)
    requires 0 < |a| && 0 < |b| && i < |a| && i < |b|
    ensures a[..i + 1] == b[..i + 1] <==> a[0] == b[0] && a[1..][..i] == b[1..][..i]
  {
    assert a[..i + 1] == [a[0]] + a[1..][..i];
    assert b[..i + 1] == [b[0]] + b[1..][..i];
    if a[..i + 1] == b[..i + 1] {
      assert a[1..][..i] == a[..i + 1][1..] && b[1..][..i] == b[..i + 1][1..];
    }
  }

  lemma PrecedesByTails(a: string, b: string)
    requires 0 < |a| && 0 < |b| && a[0] == b[0]
    ensures Precedes(a, b) <==> Precedes(a[1..], b[1..])
  {
    if Precedes(a[1..], b[1..]) {
      var i :| 0 <= i < |a| && i + 1 < |b| && a[1..][..i] == b[1..][..i] && (i + 1 == |a| || a[1..][i] < b[1..][i]);
      AgreeFurther(a, b, i);
      assert a[..i + 1] == b[..i + 1];
    }
    if Precedes(a, b) {
      var i :| 0 <= i <= |a| && i < |b| && a[..i] == b[..i] && (i == |a| || a[i] < b[i]);
      AgreeFurther(a, b, i - 1);
      assert a[1..][..i - 1] == b[1..][..i - 1];
    }
  }

  /** The comparison character by character is that order. */
  lemma {:induction false} LessIs(a: string, b: string)
    ensures Less(a, b) <==>
              exists i :: 0 <= i <= |a| && i < |b| && a[..i] == b[..i] && (i == |a| || a[i] < b[i])
    decreases |a|
  {
    assert a[..0] == b[..0];
    if |a| == 0 || |b| == 0 {
    } else if a[0] != b[0] {
      forall i | 0 < i <= |a| && i < |b| ensures a[..i] != b[..i] { assert a[..i][0] == a[0] && b[..i][0] == b[0]; }
    } else {
      LessIs(a[1..], b[1..]);
      PrecedesByTails(a, b);
    }
  }

  lemma LessPrecedes(a: string, b: string)
    ensures Less(a, b) <==> Precedes(a, b)
  {
    LessIs(a, b);
  }

  lemma {:induction false} LessTotal(a: string, b: string)
    ensures Less(a, b) || a == b || Less(b, a)
    decreases |a|
  {
    if |a| > 0 && |b| > 0 && a[0] == b[0] {
      LessTotal(a[1..], b[1..]);
      assert a == [a[0]] + a[1..] && b == [b[0]] + b[1..];
    }
  }

  lemma {:induction false} LessTransitive(a: string, b: string, c: string)
    requires Less(a, b) && Less(b, c)
    ensures Less(a, c)
    decreases |a|
  {
    if |a| > 0 && a[0] == b[0] && b[0] == c[0] {
      LessTransitive(a[1..], b[1..], c[1..]);
    }
  }

  lemma {:induction false} LessAsymmetric(a: string, b: string)
    requires Less(a, b)
    ensures !Less(b, a) && a != b
    decreases |a|
  {
    if |a| > 0 && a[0] == b[0] {
      LessAsymmetric(a[1..], b[1..]);
    }
  }

  predicate IsLeast(u: string, names: set<string>) {
    u in names && forall v :: v in names ==> v == u || Less(u, v)
  }

  predicate IsGreatest(u: string, names: set<string>) {
    u in names && forall v :: v in names ==> v == u || Less(v, u)
  }

  lemma {:induction false} LeastExists(names: set<string>)
    requires names != {}
    ensures exists u :: IsLeast(u, names)
    decreases |names|
  {
    var x :| x in names;
    var rest := names - {x};
    if rest == {} {
      assert forall v :: v in names && v != x ==> v in rest;
      assert IsLeast(x, names);
    } else {
      LeastExists(rest);
      var y :| IsLeast(y, rest);
      LessTotal(x, y);
      if Less(x, y) {
        forall v | v in names ensures v == x || Less(x, v) {
          if v != x && v != y { LessTransitive(x, y, v); }
        }
        assert IsLeast(x, names);
      } else {
        assert IsLeast(y, names);
      }
    }
  }

  lemma {:induction false} GreatestExists(names: set<string>)
    requires names != {}
    ensures exists u :: IsGreatest(u, names)
    decreases |names|
  {
    var x :| x in names;
    var rest := names - {x};
    if rest == {} {
      assert forall v :: v in names && v != x ==> v in rest;
      assert IsGreatest(x, names);
    } else {
      GreatestExists(rest);
      var y :| IsGreatest(y, rest);
      LessTotal(x, y);
      if Less(y, x) {
        forall v | v in names ensures v == x || Less(v, x) {
          if v != x && v != y { LessTransitive(v, y, x); }
        }
        assert IsGreatest(x, names);
      } else {
        assert IsGreatest(y, names);
      }
    }
  }

  /** A set of names has at most one least and at most one greatest member. */
  lemma ExtremesUnique(u: string, v: string, names: set<string>)
    requires (IsLeast(u, names) && IsLeast(v, names)) || (IsGreatest(u, names) && IsGreatest(v, names))
    ensures u == v
  {
    if u != v {
      if Less(u, v) { LessAsymmetric(u, v); }
      if Less(v, u) { LessAsymmetric(v, u); }
    }
  }

  ghost function Least(names: set<string>): (u: string)
    requires names != {}
    ensures IsLeast(u, names)
  {
    LeastExists(names);
    var u :| IsLeast(u, names);
    u
  }

  ghost function Greatest(names: set<string>): (u: string)
    requires names != {}
    ensures IsGreatest(u, names)
  {
    GreatestExists(names);
    var u :| IsGreatest(u, names);
    u
  }
}
