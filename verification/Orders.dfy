/** Byte-wise string order, and the sorted enumeration of a finite set of strings. */
module Orders {

  datatype Ordering = Less | Equal | Greater

  function Flip(o: Ordering): Ordering {
    match o case Less => Greater case Equal => Equal case Greater => Less
  }

  function CompareInt(a: int, b: int): Ordering {
    if a < b then Less else if a == b then Equal else Greater
  }

  /** Lexicographic comparison; a proper prefix comes first. */
  function Lex(a: string, b: string): Ordering {
    if a == "" then (if b == "" then Equal else Less)
    else if b == "" then Greater
    else if a[0] == b[0] then Lex(a[1..], b[1..])
    else if a[0] < b[0] then Less
    else Greater
  }

  lemma {:induction false} LexEqual(a: string, b: string)
    ensures Lex(a, b) == Equal <==> a == b
  {
    if a != "" && b != "" {
      LexEqual(a[1..], b[1..]);
      if a[0] == b[0] && a[1..] == b[1..] {
        assert a == [a[0]] + a[1..] == [b[0]] + b[1..] == b;
      }
    }
  }

  lemma {:induction false} LexFlips(a: string, b: string)
    ensures Lex(b, a) == Flip(Lex(a, b))
  {
    if a != "" && b != "" { LexFlips(a[1..], b[1..]); }
  }

  lemma {:induction false} LexTransitive(a: string, b: string, c: string)
    requires Lex(a, b) == Less && Lex(b, c) == Less
    ensures Lex(a, c) == Less
  {
    if a != "" {
      if a[0] == b[0] && b[0] == c[0] { LexTransitive(a[1..], b[1..], c[1..]); }
    }
  }

  predicate LexAtMost(a: string, b: string) { Lex(a, b) != Greater }

  // ---------------------------------------------------------------------
  // Sorted keys
  // ---------------------------------------------------------------------

  predicate IsLeast(keys: set<string>, k: string) { k in keys && forall x :: x in keys ==> LexAtMost(k, x) }

  lemma {:induction false} LeastExists(keys: set<string>)
    requires keys != {}
    ensures exists k :: IsLeast(keys, k)
  {
    hide Lex;
    var x :| x in keys;
    var rest := keys - {x};
    LexEqual(x, x);
    if rest == {} {
      assert keys == {x};
      assert IsLeast(keys, x);
    } else {
      LeastExists(rest);
      var y :| IsLeast(rest, y);
      if Lex(x, y) == Greater {
        LexFlips(x, y);
        assert IsLeast(keys, y);
      } else {
        forall z | z in keys ensures LexAtMost(x, z) {
          if z != x { AtMostTransitive(x, y, z); }
        }
        assert IsLeast(keys, x);
      }
    }
  }

  lemma AtMostTransitive(a: string, b: string, c: string)
    requires LexAtMost(a, b) && LexAtMost(b, c)
    ensures LexAtMost(a, c)
  {
    hide Lex;
    LexEqual(a, b);
    LexEqual(b, c);
    if Lex(a, b) == Less && Lex(b, c) == Less { LexTransitive(a, b, c); }
  }

  lemma LeastUnique(keys: set<string>, a: string, b: string)
    requires IsLeast(keys, a) && IsLeast(keys, b)
    ensures a == b
  {
    hide Lex;
    LexFlips(a, b);
    LexEqual(a, b);
  }

  function Least(keys: set<string>): (k: string)
    requires keys != {}
    ensures IsLeast(keys, k)
  {
    LeastExists(keys);
    assert forall a, b :: IsLeast(keys, a) && IsLeast(keys, b) ==> a == b by {
      forall a, b | IsLeast(keys, a) && IsLeast(keys, b) ensures a == b { LeastUnique(keys, a, b); }
    }
    var k :| IsLeast(keys, k);
    k
  }

  /** The keys of a sorted map, in iteration order. */
  function SortedKeys(keys: set<string>): (r: seq<string>)
    ensures forall k :: k in r <==> k in keys
    ensures forall i, j :: 0 <= i < j < |r| ==> r[i] != r[j] && LexAtMost(r[i], r[j])
  {
    if keys == {} then []
    else
      var k := Least(keys);
      [k] + SortedKeys(keys - {k})
  }
}
