/** Paths by their components. */
module PathNames {
  import opened Lists
  import opened SemVer
  import opened SemVerTheorems
  import ShellQuote

  lemma {:induction false} SplitSnoc(a: string, b: string, c: char)
    requires c !in b
    ensures Split(a + [c] + b, c) == Split(a, c) + [b]
    decreases |a|
  {
    hide SplitOnce;
    match SplitOnce(a, c) {
      case None => {
        SplitOnceAt(a, b, c);
        SplitNone(b, c);
      }
      case Some(xy) => {
        var (x, y) := xy;
        assert a + [c] + b == x + [c] + (y + [c] + b);
        SplitOnceAt(x, y + [c] + b, c);
        SplitSnoc(y, b, c);
      }
    }
  }

  lemma {:induction false} SplitConcat(a: string, b: string, c: char)
    ensures Split(a + [c] + b, c) == Split(a, c) + Split(b, c)
    decreases |a|
  {
    hide SplitOnce;
    match SplitOnce(a, c) {
      case None => { SplitOnceAt(a, b, c); }
      case Some(xy) => {
        var (x, y) := xy;
        assert a + [c] + b == x + [c] + (y + [c] + b);
        SplitOnceAt(x, y + [c] + b, c);
        SplitConcat(y, b, c);
      }
    }
  }

  lemma {:induction false} JoinConcat(xs: seq<string>, ys: seq<string>, c: char)
    requires xs != [] && ys != []
    ensures Join(xs + ys, c) == Join(xs, c) + [c] + Join(ys, c)
  {
    if |xs| == 1 {
      assert (xs + ys)[1..] == ys;
    } else {
      assert (xs + ys)[1..] == xs[1..] + ys;
      JoinConcat(xs[1..], ys, c);
    }
  }

  /** One path is another, or lies somewhere below it: its components go on where the other's end. */
  ghost predicate AtOrBelow(p: string, base: string) {
    if base == "/" then p != "" && p[0] == '/' else Split(base, '/') <= Split(p, '/')
  }

  /** In terms of characters: the same, or a slash after it. */
  lemma AtOrBelowIff(p: string, base: string)
    ensures AtOrBelow(p, base) <==>
      || p == base
      || (base == "/" && p != "" && p[0] == '/')
      || (base != "/" && exists rest :: p == base + "/" + rest)
  {
    hide Split, Join;
    if base != "/" {
      var xs, ys := Split(base, '/'), Split(p, '/');
      if rest :| p == base + "/" + rest { SplitConcat(base, rest, '/'); }
      if xs <= ys {
        JoinSplit(base, '/');
        JoinSplit(p, '/');
        var more := ys[|xs|..];
        assert ys == xs + more;
        if more == [] {
          assert ys == xs;
        } else {
          JoinConcat(xs, more, '/');
          assert p == base + "/" + Join(more, '/');
        }
      }
    }
  }

  /** Components that do not name anything. */
  predicate IsBlank(component: string) { component == "" || component == "." }

  /** The last component that is not blank. */
  ghost predicate IsLastNamed(components: seq<string>, k: nat) {
    k < |components| && !IsBlank(components[k]) && forall j :: k < j < |components| ==> IsBlank(components[j])
  }

  lemma LastComponent(p: string)
    ensures var i := ShellQuote.LastSlash(p);
      '/' !in p[i..]
      && Split(p, '/') == if i == 0 then [p] else Split(p[..i - 1], '/') + [p[i..]]
  {
    var i := ShellQuote.LastSlash(p);
    if i == 0 {
      SplitNone(p, '/');
    } else {
      assert p == p[..i - 1] + ['/'] + p[i..];
      SplitSnoc(p[..i - 1], p[i..], '/');
    }
  }

  /** The file name of a path is its last component that is not blank, unless that goes up. */
  lemma {:induction false} FileNameIsLastNamed(p: string, k: nat)
    ensures var components := Split(p, '/');
      && (IsLastNamed(components, k) ==>
            ShellQuote.FileName(p) == if components[k] == ".." then None else Some(components[k]))
      && ((forall j :: 0 <= j < |components| ==> IsBlank(components[j])) ==> ShellQuote.FileName(p) == None)
    decreases |p|
  {
    hide Split, ShellQuote.LastSlash;
    var components, i := Split(p, '/'), ShellQuote.LastSlash(p);
    LastComponent(p);
    var n := |components| - 1;
    assert components[n] == p[i..] by { if i == 0 { assert p[0..] == p; } }
    if IsBlank(p[i..]) && i > 0 {
      FileNameIsLastNamed(p[..i - 1], k);
      assert components[..n] == Split(p[..i - 1], '/');
      assert forall j :: 0 <= j < n ==> components[..n][j] == components[j];
    }
  }
}
