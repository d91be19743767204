/** Python's `"-".join(fields)` and when it can be undone.  Every cache key of the
    pipeline is the digest of such a joined string. */
module Joined {

  function Join(fields: seq<string>): string {
    if |fields| == 0 then ""
    else if |fields| == 1 then fields[0]
    else fields[0] + "-" + Join(fields[1..])
  }

  ghost predicate DashFree(fields: seq<string>) {
    forall f <- fields :: '-' !in f
  }

  function Dashes(s: string): nat {
    if s == "" then 0 else (if s[0] == '-' then 1 else 0) + Dashes(s[1..])
  }

  lemma {:induction false} DashesAppend(s: string, t: string)
    ensures Dashes(s + t) == Dashes(s) + Dashes(t)
    decreases |s|
  {
    if s == "" {
      assert s + t == t;
    } else {
      DashesAppend(s[1..], t);
      assert (s + t)[1..] == s[1..] + t;
    }
  }

  lemma {:induction false} NoDashes(s: string)
    ensures Dashes(s) == 0 <==> '-' !in s
    decreases |s|
  {
    if s != "" {
      NoDashes(s[1..]);
      assert '-' in s <==> s[0] == '-' || '-' in s[1..];
    }
  }

  /** A joined string has a dash between any two fields, and more exactly when a field has one. */
  lemma {:induction false} JoinDashes(fields: seq<string>)
    requires fields != []
    ensures Dashes(Join(fields)) >= |fields| - 1
    ensures Dashes(Join(fields)) == |fields| - 1 <==> DashFree(fields)
    decreases |fields|
  {
    NoDashes(fields[0]);
    assert DashFree(fields) <==> '-' !in fields[0] && DashFree(fields[1..]) by {
      assert fields == [fields[0]] + fields[1..];
    }
    if |fields| > 1 {
      var rest := Join(fields[1..]);
      JoinDashes(fields[1..]);
      DashesAppend(fields[0] + "-", rest);
      DashesAppend(fields[0], "-");
    }
  }

  lemma HeadsAgree(f: string, g: string, x: string, y: string)
    requires '-' !in f && '-' !in g
    requires f + "-" + x == g + "-" + y
    ensures f == g && x == y
  {
    var l, r := f + "-" + x, g + "-" + y;
    assert l[|f|] == '-' && r[|g|] == '-';
    if |f| < |g| || |g| < |f| {
      assert false;
    }
    assert f == l[..|f|] && g == r[..|g|];
    assert x == l[|f| + 1..] && y == r[|g| + 1..];
  }

  lemma {:induction false} DashFreeInjective(a: seq<string>, b: seq<string>)
    requires |a| == |b| && DashFree(a) && DashFree(b) && Join(a) == Join(b)
    ensures a == b
    decreases |a|
  {
    if |a| > 1 {
      HeadsAgree(a[0], b[0], Join(a[1..]), Join(b[1..]));
      DashFreeInjective(a[1..], b[1..]);
      assert a == [a[0]] + a[1..] && b == [b[0]] + b[1..];
    } else if |a| == 1 {
      assert a == [a[0]] && b == [b[0]];
    }
  }

  /** A list with no "-" inside a field is told apart from every other list of its length. */
  lemma JoinInjective(a: seq<string>, b: seq<string>)
    requires |a| == |b| && DashFree(a) && Join(a) == Join(b)
    ensures a == b
  {
    if a != [] {
      JoinDashes(a);
      JoinDashes(b);
      DashFreeInjective(a, b);
    }
  }

  /** A "-" inside a field can change places with a separator next to it. */
  lemma Shifted(f: string, g: string, h: string)
    ensures Join([f + "-" + g, h]) == Join([f, g + "-" + h])
    ensures [f + "-" + g, h] != [f, g + "-" + h]
  {
    assert [f + "-" + g, h][1..] == [h] && [f, g + "-" + h][1..] == [g + "-" + h];
    assert f + "-" + g + "-" + h == f + "-" + (g + "-" + h);
    assert |f + "-" + g| > |f|;
    assert [f + "-" + g, h][0] != [f, g + "-" + h][0];
  }

  lemma AtDash(f: string) returns (p: string, q: string)
    requires '-' in f
    ensures f == p + "-" + q
  {
    var k :| 0 <= k < |f| && f[k] == '-';
    p, q := f[..k], f[k + 1..];
  }

  /** Only the first two fields count for the dash that moves between them. */
  lemma JoinFront(x: string, y: string, rest: seq<string>)
    ensures Join([x, y] + rest) == if rest == [] then Join([x, y]) else Join([x, y]) + "-" + Join(rest)
  {
    var all := [x, y] + rest;
    assert all[1..] == [y] + rest && ([y] + rest)[1..] == rest && [x, y][1..] == [y];
    if rest != [] {
      assert x + "-" + (y + "-" + Join(rest)) == x + "-" + y + "-" + Join(rest);
    }
  }

  lemma {:induction false} OtherList(a: seq<string>) returns (b: seq<string>)
    requires |a| >= 2 && !DashFree(a)
    ensures |b| == |a| && Join(b) == Join(a) && b != a
    decreases |a|
  {
    var rest := a[2..];
    assert a == [a[0], a[1]] + rest;
    if '-' in a[0] {
      var p, q := AtDash(a[0]);
      b := [p, q + "-" + a[1]] + rest;
      Shifted(p, q, a[1]);
      JoinFront(a[0], a[1], rest);
      JoinFront(p, q + "-" + a[1], rest);
      assert b[0] != a[0];
    } else if |a| == 2 {
      var p, q := AtDash(a[1]);
      b := [a[0] + "-" + p, q];
      Shifted(a[0], p, q);
      assert a == [a[0], p + "-" + q];
    } else {
      assert a == [a[0]] + a[1..];
      var c := OtherList(a[1..]);
      b := [a[0]] + c;
      assert b[1..] == c;
    }
  }

  /** Exactly when joining tells a list of two or more fields apart from all others of its length. */
  lemma JoinUnambiguousIff(a: seq<string>)
    requires |a| >= 2
    ensures DashFree(a) <==> forall b: seq<string> :: |b| == |a| && Join(b) == Join(a) ==> b == a
  {
    if DashFree(a) {
      forall b: seq<string> | |b| == |a| && Join(b) == Join(a) ensures b == a {
        JoinInjective(a, b);
      }
    } else {
      var b := OtherList(a);
    }
  }
}
