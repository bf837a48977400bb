/**
 Comparing the tracked issue snapshot with the live export. Both sides are
 brought to a normal form (surrogate row ids dropped, row lists sorted,
 blockers resolved on that side dropped) and compared as serialized text.
 Serialization is a parameter, assumed to tell different values apart.
 */
module Snapshot {
  import opened Lists
  import opened Json
  import opened Orders

  type Dumps = Json -> string

  ghost predicate Injective(dumps: Dumps) { forall a, b :: dumps(a) == dumps(b) ==> a == b }

  datatype Malformed = Malformed

  // ---------------------------------------------------------------------
  // Sorting
  // ---------------------------------------------------------------------

  function Insert<T>(atMost: (T, T) -> bool, sorted: seq<T>, x: T): seq<T> {
    if sorted == [] || atMost(x, sorted[0]) then [x] + sorted
    else [sorted[0]] + Insert(atMost, sorted[1..], x)
  }

  function Sort<T>(atMost: (T, T) -> bool, s: seq<T>): seq<T> {
    if s == [] then [] else Insert(atMost, Sort(atMost, s[..|s| - 1]), s[|s| - 1])
  }

  ghost predicate Total<T(!new)>(atMost: (T, T) -> bool) {
    && (forall a, b :: atMost(a, b) || atMost(b, a))
    && (forall a, b :: atMost(a, b) && atMost(b, a) ==> a == b)
    && (forall a, b, c :: atMost(a, b) && atMost(b, c) ==> atMost(a, c))
  }

  ghost predicate IsSorted<T>(atMost: (T, T) -> bool, s: seq<T>) {
    forall i, j :: 0 <= i < j < |s| ==> atMost(s[i], s[j])
  }

  lemma {:induction false} InsertKeeps<T(!new)>(atMost: (T, T) -> bool, sorted: seq<T>, x: T)
    requires Total(atMost) && IsSorted(atMost, sorted)
    ensures IsSorted(atMost, Insert(atMost, sorted, x))
    ensures multiset(Insert(atMost, sorted, x)) == multiset(sorted) + multiset{x}
  {
    if sorted == [] || atMost(x, sorted[0]) {
      assert forall i :: 0 < i < |sorted| ==> atMost(sorted[0], sorted[i]);
    } else {
      var rest := Insert(atMost, sorted[1..], x);
      InsertKeeps(atMost, sorted[1..], x);
      assert sorted == [sorted[0]] + sorted[1..];
      forall i | 0 <= i < |rest| ensures atMost(sorted[0], rest[i]) {
        assert rest[i] in multiset(rest);
        assert rest[i] == x || rest[i] in multiset(sorted[1..]);
        assert rest[i] == x || rest[i] in sorted[1..];
      }
    }
  }

  lemma {:induction false} SortKeeps<T(!new)>(atMost: (T, T) -> bool, s: seq<T>)
    requires Total(atMost)
    ensures IsSorted(atMost, Sort(atMost, s)) && multiset(Sort(atMost, s)) == multiset(s)
  {
    if s != [] {
      var n := |s| - 1;
      assert s == s[..n] + [s[n]];
      SortKeeps(atMost, s[..n]);
      InsertKeeps(atMost, Sort(atMost, s[..n]), s[n]);
    }
  }

  lemma LeastFirst<T(!new)>(atMost: (T, T) -> bool, a: seq<T>, b: seq<T>)
    requires Total(atMost) && IsSorted(atMost, a) && IsSorted(atMost, b)
    requires multiset(a) == multiset(b) && a != [] && b != []
    ensures a[0] == b[0]
  {
    assert a[0] in multiset(b) && b[0] in multiset(a);
    assert a[0] in b && b[0] in a;
    assert atMost(a[0], a[0]);
    assert atMost(b[0], a[0]) && atMost(a[0], b[0]);
  }

  /** A multiset has one sorted arrangement. */
  lemma {:induction false} SortedUnique<T(!new)>(atMost: (T, T) -> bool, a: seq<T>, b: seq<T>)
    requires Total(atMost) && IsSorted(atMost, a) && IsSorted(atMost, b) && multiset(a) == multiset(b)
    ensures a == b
  {
    assert |multiset(a)| == |a| && |multiset(b)| == |b|;
    if a != [] {
      LeastFirst(atMost, a, b);
      assert a == [a[0]] + a[1..] && b == [b[0]] + b[1..];
      assert multiset(a[1..]) == multiset(a) - multiset{a[0]};
      assert multiset(b[1..]) == multiset(b) - multiset{b[0]};
      SortedUnique(atMost, a[1..], b[1..]);
    }
  }

  /** Sorting two lists gives the same list exactly when they hold the same elements. */
  lemma SortEqual<T(!new)>(atMost: (T, T) -> bool, a: seq<T>, b: seq<T>)
    requires Total(atMost)
    ensures Sort(atMost, a) == Sort(atMost, b) <==> multiset(a) == multiset(b)
  {
    SortKeeps(atMost, a);
    SortKeeps(atMost, b);
    if multiset(a) == multiset(b) { SortedUnique(atMost, Sort(atMost, a), Sort(atMost, b)); }
  }

  function ByDump(dumps: Dumps): (Json, Json) -> bool { (a, b) => LexAtMost(dumps(a), dumps(b)) }

  function ByNumber(): (int, int) -> bool { (a, b) => a <= b }

  lemma ByDumpTotal(dumps: Dumps)
    requires Injective(dumps)
    ensures Total(ByDump(dumps))
  {
    hide Lex, LexAtMost;
    forall a, b ensures ByDump(dumps)(a, b) || ByDump(dumps)(b, a)
      ensures ByDump(dumps)(a, b) && ByDump(dumps)(b, a) ==> a == b
    {
      AtMostTotal(dumps(a), dumps(b));
    }
    forall a, b, c | ByDump(dumps)(a, b) && ByDump(dumps)(b, c) ensures ByDump(dumps)(a, c) {
      AtMostTransitive(dumps(a), dumps(b), dumps(c));
    }
  }

  lemma AtMostTotal(a: string, b: string)
    ensures LexAtMost(a, b) || LexAtMost(b, a)
    ensures LexAtMost(a, b) && LexAtMost(b, a) ==> a == b
  {
    hide Lex;
    LexFlips(a, b);
    LexEqual(a, b);
  }

  // ---------------------------------------------------------------------
  // Records
  // ---------------------------------------------------------------------

  type Index = map<int, map<string, Json>>

  /** What Python takes for false. */
  predicate IsFalsy(j: Json) {
    match j
    case Null => true
    case Bool(b) => !b
    case Number(n) => n == 0
    case Float(x) => x == 0.0
    case Str(s) => s == ""
    case Arr(items) => items == []
    case Obj(fields) => fields == map[]
  }

  /** The list at a field; a missing or falsy value is the empty list. */
  function ListAt(rec: map<string, Json>, key: string): Result<seq<Json>, Malformed> {
    if key !in rec || IsFalsy(rec[key]) then Ok([])
    else match rec[key] case Arr(items) => Ok(items) case _ => Err(Malformed)
  }

  predicate AllObjects(rows: seq<Json>) { forall i :: 0 <= i < |rows| ==> rows[i].Obj? }

  function RowsAt(rec: map<string, Json>, key: string): Result<seq<Json>, Malformed> {
    match ListAt(rec, key)
    case Ok(rows) => if AllObjects(rows) then Ok(rows) else Err(Malformed)
    case Err(e) => Err(e)
  }

  function BlockersAt(rec: map<string, Json>): Result<seq<int>, Malformed> {
    match ListAt(rec, "blocked_by")
    case Ok(items) =>
      if forall i :: 0 <= i < |items| ==> items[i].Number?
      then Ok(seq(|items|, i requires 0 <= i < |items| && items[i].Number? => items[i].value)) else Err(Malformed)
    case Err(e) => Err(e)
  }

  /** The four lists of a record can be read. */
  predicate Readable(rec: map<string, Json>) {
    RowsAt(rec, "notes").Ok? && RowsAt(rec, "events").Ok? && RowsAt(rec, "relations").Ok? && BlockersAt(rec).Ok?
  }

  function StatusOf(rec: map<string, Json>): Option<string> {
    if "issue" in rec then GetString(rec["issue"], "status") else None
  }

  predicate IsResolved(rec: map<string, Json>) {
    StatusOf(rec) == Some("done") || StatusOf(rec) == Some("wontfix")
  }

  function ResolvedIds(index: Index): set<int> { set i | i in index && IsResolved(index[i]) }

  /** The seven values that count as an empty list. */
  predicate CountsAsEmpty(j: Json) {
    j in {Null, Bool(false), Number(0), Float(0.0), Str(""), Arr([]), Obj(map[])}
  }

  /** What a record has at a list field: the list itself, or nothing. */
  ghost predicate HasList(rec: map<string, Json>, key: string, items: seq<Json>) {
    if key in rec && !CountsAsEmpty(rec[key]) then rec[key] == Arr(items) else items == []
  }

  /** How the lists of a record are read. */
  lemma ListsReadIff(rec: map<string, Json>, key: string, items: seq<Json>, blockers: seq<int>)
    ensures ListAt(rec, key) == Ok(items) <==> HasList(rec, key, items)
    ensures RowsAt(rec, key) == Ok(items) <==>
            HasList(rec, key, items) && forall i :: 0 <= i < |items| ==> items[i].Obj?
    ensures BlockersAt(rec) == Ok(blockers) <==>
            HasList(rec, "blocked_by", seq(|blockers|, i requires 0 <= i < |blockers| => Number(blockers[i])))
  {
    ListReadIff(rec, key, items);
    var numbers := seq(|blockers|, i requires 0 <= i < |blockers| => Number(blockers[i]));
    ListReadIff(rec, "blocked_by", numbers);
    hide HasList, ListAt;
    var read := ListAt(rec, "blocked_by");
    if BlockersAt(rec) == Ok(blockers) {
      assert read.value == numbers;
    }
    if read == Ok(numbers) {
      assert BlockersAt(rec).value == blockers;
    }
  }

  lemma ListReadIff(rec: map<string, Json>, key: string, items: seq<Json>)
    ensures ListAt(rec, key) == Ok(items) <==> HasList(rec, key, items)
  {
    if key in rec { FalsyIff(rec[key]); }
  }

  lemma FalsyIff(j: Json)
    ensures IsFalsy(j) <==> CountsAsEmpty(j)
  {
  }

  /** An issue is resolved when its status is one of the two final ones. */
  lemma ResolvedIff(index: Index, i: int)
    ensures i in ResolvedIds(index) <==>
      i in index && "issue" in index[i]
      && Get(index[i]["issue"], "status") in {Some(Str("done")), Some(Str("wontfix"))}
  {
  }

  // ---------------------------------------------------------------------
  // The normal form
  // ---------------------------------------------------------------------

  function WithoutId(row: Json): Json { if row.Obj? then Obj(row.fields - {"id"}) else row }

  function Stripped(rows: seq<Json>): (r: seq<Json>)
    ensures |r| == |rows| && forall i :: 0 <= i < |r| ==> r[i] == WithoutId(rows[i])
  {
    seq(|rows|, i requires 0 <= i < |rows| => WithoutId(rows[i]))
  }

  function Normal(dumps: Dumps, rows: seq<Json>): Json { Arr(Sort(ByDump(dumps), Stripped(rows))) }

  function OpenBlockers(blockers: seq<int>, resolved: set<int>): seq<int> {
    Filter((b: int) => b !in resolved, blockers)
  }

  function Numbers(ns: seq<int>): Json { Arr(seq(|ns|, i requires 0 <= i < |ns| => Number(ns[i]))) }

  function NormalBlockers(blockers: seq<int>, resolved: set<int>): Json {
    Numbers(Sort(ByNumber(), OpenBlockers(blockers, resolved)))
  }

  function Canonical(dumps: Dumps, rec: map<string, Json>, resolved: set<int>): map<string, Json>
    requires Readable(rec)
  {
    rec["notes" := Normal(dumps, RowsAt(rec, "notes").value)]
       ["events" := Normal(dumps, RowsAt(rec, "events").value)]
       ["relations" := Normal(dumps, RowsAt(rec, "relations").value)]
       ["blocked_by" := NormalBlockers(BlockersAt(rec).value, resolved)]
  }

  const SURROGATE_ID_LISTS: seq<string> := ["notes", "events", "relations"]

  /** Popping the ids of one list in the copy, row by row. */
  method PopIds(rows: seq<Json>) returns (stripped: seq<Json>)
    ensures stripped == Stripped(rows)
    ensures forall i :: 0 <= i < |rows| ==>
      if rows[i].Obj? then stripped[i] == Obj(rows[i].fields - {"id"}) else stripped[i] == rows[i]
  {
    stripped := rows;
    for i := 0 to |rows|
      invariant |stripped| == |rows|
      invariant forall k :: 0 <= k < i ==> stripped[k] == WithoutId(rows[k])
      invariant forall k :: i <= k < |rows| ==> stripped[k] == rows[k]
    {
      stripped := stripped[i := WithoutId(stripped[i])];
    }
  }

  function SurrogateKey(k: nat): string
    requires k < 3
  {
    SURROGATE_ID_LISTS[k]
  }

  /** The record with its first `k` row lists in normal form. */
  function Normalized(dumps: Dumps, rec: map<string, Json>, k: nat): map<string, Json>
    requires k <= 3
  {
    if k == 0 then rec
    else
      var key := SurrogateKey(k - 1);
      var rows := match RowsAt(rec, key) case Ok(rows) => Normal(dumps, rows) case Err(_) => Null;
      Normalized(dumps, rec, k - 1)[key := rows]
  }

  lemma {:induction false} NotYetNormalized(dumps: Dumps, rec: map<string, Json>, k: nat, key: string)
    requires k <= 3 && forall i :: 0 <= i < k ==> SurrogateKey(i) != key
    ensures ListAt(Normalized(dumps, rec, k), key) == ListAt(rec, key)
  {
    hide SurrogateKey, IsFalsy, Normal;
    if k > 0 { NotYetNormalized(dumps, rec, k - 1, key); }
  }

  lemma NormalizedIsCanonical(dumps: Dumps, rec: map<string, Json>, resolved: set<int>)
    requires Readable(rec)
    ensures Normalized(dumps, rec, 3)["blocked_by" := NormalBlockers(BlockersAt(rec).value, resolved)]
         == Canonical(dumps, rec, resolved)
  {
    hide Normal, NormalBlockers, RowsAt, BlockersAt;
    assert Normalized(dumps, rec, 1) == rec["notes" := Normal(dumps, RowsAt(rec, "notes").value)];
    assert Normalized(dumps, rec, 2)
        == Normalized(dumps, rec, 1)["events" := Normal(dumps, RowsAt(rec, "events").value)];
    assert Normalized(dumps, rec, 3)
        == Normalized(dumps, rec, 2)["relations" := Normal(dumps, RowsAt(rec, "relations").value)];
  }

  /** The edits on a copy of the record, list after list. */
  method CanonicalRecord(dumps: Dumps, original: map<string, Json>, resolved: set<int>)
    returns (result: Result<string, Malformed>)
    ensures result.Ok? <==> Readable(original)
    ensures result.Ok? ==> result.value == dumps(Obj(Canonical(dumps, original, resolved)))
  {
    hide Sort, IsFalsy, ListAt;
    var rec := original;
    for k := 0 to |SURROGATE_ID_LISTS|
      invariant rec == Normalized(dumps, original, k)
      invariant forall i :: 0 <= i < k ==> RowsAt(original, SurrogateKey(i)).Ok?
    {
      var key := SURROGATE_ID_LISTS[k];
      NotYetNormalized(dumps, original, k, key);
      var rows := RowsAt(rec, key);
      if rows.Err? {
        return Err(Malformed);
      }
      var stripped := PopIds(rows.value);
      rec := rec[key := Arr(Sort(ByDump(dumps), stripped))];
    }
    assert RowsAt(original, SurrogateKey(0)).Ok? && RowsAt(original, SurrogateKey(1)).Ok?
        && RowsAt(original, SurrogateKey(2)).Ok?;
    NotYetNormalized(dumps, original, 3, "blocked_by");
    var blockers := BlockersAt(rec);
    if blockers.Err? {
      return Err(Malformed);
    }
    NormalizedIsCanonical(dumps, original, resolved);
    return Ok(dumps(Obj(rec["blocked_by" := NormalBlockers(blockers.value, resolved)])));
  }

  // ---------------------------------------------------------------------
  // Drift
  // ---------------------------------------------------------------------

  ghost predicate AllReadable(index: Index) { forall i :: i in index ==> Readable(index[i]) }

  ghost predicate IsLeast(ids: set<int>, m: int) { m in ids && forall i :: i in ids ==> m <= i }

  lemma {:induction false} LeastExists(ids: set<int>)
    requires ids != {}
    ensures exists m :: IsLeast(ids, m)
    decreases |ids|
  {
    var m := Member(ids);
    if ids == {m} {
      assert IsLeast(ids, m);
    } else {
      LeastExists(ids - {m});
      var k :| IsLeast(ids - {m}, k);
      assert forall i :: i in ids ==> i == m || i in ids - {m};
      assert IsLeast(ids, if m < k then m else k);
    }
  }

  /** The ids in increasing order. */
  function Listed(ids: set<int>): (r: seq<int>)
    ensures forall i :: i in r <==> i in ids
  {
    if ids == {} then []
    else
      LeastExists(ids);
      var m :| m in ids && forall i :: i in ids ==> m <= i;
      [m] + Listed(ids - {m})
  }

  lemma {:induction false} ListedAscends(ids: set<int>)
    ensures forall i, j :: 0 <= i < j < |Listed(ids)| ==> Listed(ids)[i] < Listed(ids)[j]
  {
    if ids != {} {
      var r := Listed(ids);
      var rest := ids - {r[0]};
      ListedAscends(rest);
      assert r == [r[0]] + Listed(rest);
      hide Listed;
      forall j | 1 <= j < |r| ensures r[0] < r[j] {
        assert r[j] == Listed(rest)[j - 1];
        assert r[j] in Listed(rest);
      }
    }
  }

  datatype Drift = Drift(added: seq<int>, removed: seq<int>, changed: seq<int>)

  ghost predicate Differs(dumps: Dumps, committed: Index, live: Index, i: int)
    requires AllReadable(committed) && AllReadable(live) && i in committed && i in live
  {
    dumps(Obj(Canonical(dumps, committed[i], ResolvedIds(committed))))
    != dumps(Obj(Canonical(dumps, live[i], ResolvedIds(live))))
  }

  ghost function Diff(dumps: Dumps, committed: Index, live: Index): Drift
    requires AllReadable(committed) && AllReadable(live)
  {
    Drift(Listed(live.Keys - committed.Keys), Listed(committed.Keys - live.Keys),
          Listed(set i | i in committed.Keys * live.Keys && Differs(dumps, committed, live, i)))
  }

  predicate NoDrift(d: Drift) { d.added == [] && d.removed == [] && d.changed == [] }

  // ---------------------------------------------------------------------
  // The reference: what it means for two records to agree
  // ---------------------------------------------------------------------

  const LISTS: set<string> := {"notes", "events", "relations", "blocked_by"}

  ghost predicate SameRows(a: map<string, Json>, b: map<string, Json>, key: string)
    requires RowsAt(a, key).Ok? && RowsAt(b, key).Ok?
  {
    multiset(Stripped(RowsAt(a, key).value)) == multiset(Stripped(RowsAt(b, key).value))
  }

  ghost predicate SameBlockers(a: map<string, Json>, resolvedA: set<int>, b: map<string, Json>, resolvedB: set<int>)
    requires BlockersAt(a).Ok? && BlockersAt(b).Ok?
  {
    multiset(OpenBlockers(BlockersAt(a).value, resolvedA)) == multiset(OpenBlockers(BlockersAt(b).value, resolvedB))
  }

  /** Equal outside the four lists; the same rows up to row ids, and the same open blockers, in any order. */
  ghost predicate Agree(a: map<string, Json>, resolvedA: set<int>, b: map<string, Json>, resolvedB: set<int>)
    requires Readable(a) && Readable(b)
  {
    && a - LISTS == b - LISTS
    && SameRows(a, b, "notes") && SameRows(a, b, "events") && SameRows(a, b, "relations")
    && SameBlockers(a, resolvedA, b, resolvedB)
  }

  ghost predicate DoNotAgree(committed: Index, live: Index, i: int)
    requires i in committed && i in live
  {
    Readable(committed[i]) && Readable(live[i])
    && !Agree(committed[i], ResolvedIds(committed), live[i], ResolvedIds(live))
  }

  lemma NormalEqual(dumps: Dumps, a: seq<Json>, b: seq<Json>)
    requires Injective(dumps)
    ensures Normal(dumps, a) == Normal(dumps, b) <==> multiset(Stripped(a)) == multiset(Stripped(b))
  {
    hide Sort;
    ByDumpTotal(dumps);
    SortEqual(ByDump(dumps), Stripped(a), Stripped(b));
  }

  lemma NumbersEqual(a: seq<int>, b: seq<int>)
    ensures Numbers(a) == Numbers(b) <==> a == b
  {
    var xs, ys := Numbers(a).items, Numbers(b).items;
    if xs == ys {
      assert |a| == |b|;
      forall i | 0 <= i < |a| ensures a[i] == b[i] { assert xs[i] == ys[i]; }
    }
  }

  lemma BlockersEqual(a: seq<int>, b: seq<int>, resolvedA: set<int>, resolvedB: set<int>)
    ensures NormalBlockers(a, resolvedA) == NormalBlockers(b, resolvedB)
            <==> multiset(OpenBlockers(a, resolvedA)) == multiset(OpenBlockers(b, resolvedB))
  {
    hide Sort, Filter;
    assert Total(ByNumber());
    SortEqual(ByNumber(), OpenBlockers(a, resolvedA), OpenBlockers(b, resolvedB));
    NumbersEqual(Sort(ByNumber(), OpenBlockers(a, resolvedA)), Sort(ByNumber(), OpenBlockers(b, resolvedB)));
  }

  /** Four fields replaced: the results are equal exactly when the rest and the four values are. */
  lemma ReplacedEqual(a: map<string, Json>, b: map<string, Json>, n: Json, e: Json, r: Json, k: Json,
                      n': Json, e': Json, r': Json, k': Json)
    ensures a["notes" := n]["events" := e]["relations" := r]["blocked_by" := k]
         == b["notes" := n']["events" := e']["relations" := r']["blocked_by" := k']
        <==> a - LISTS == b - LISTS && n == n' && e == e' && r == r' && k == k'
  {
    var x := a["notes" := n]["events" := e]["relations" := r]["blocked_by" := k];
    var y := b["notes" := n']["events" := e']["relations" := r']["blocked_by" := k'];
    assert x - LISTS == a - LISTS && y - LISTS == b - LISTS;
    assert x["notes"] == n && x["events"] == e && x["relations"] == r && x["blocked_by"] == k;
    assert y["notes"] == n' && y["events"] == e' && y["relations"] == r' && y["blocked_by"] == k';
    if a - LISTS == b - LISTS && n == n' && e == e' && r == r' && k == k' {
      assert x.Keys == (x - LISTS).Keys + LISTS && y.Keys == (y - LISTS).Keys + LISTS;
      forall key | key in x.Keys ensures key in y && x[key] == y[key] {
        if key !in LISTS { assert x[key] == (x - LISTS)[key] && y[key] == (y - LISTS)[key]; }
      }
    }
  }

  /** Two records have one normal form exactly when they agree. */
  lemma CanonicalEqual(
    dumps: Dumps, a: map<string, Json>, resolvedA: set<int>, b: map<string, Json>, resolvedB: set<int>)
    requires Injective(dumps) && Readable(a) && Readable(b)
    ensures Canonical(dumps, a, resolvedA) == Canonical(dumps, b, resolvedB) <==> Agree(a, resolvedA, b, resolvedB)
  {
    hide Normal, NormalBlockers, RowsAt, BlockersAt, Stripped, OpenBlockers;
    NormalEqual(dumps, RowsAt(a, "notes").value, RowsAt(b, "notes").value);
    NormalEqual(dumps, RowsAt(a, "events").value, RowsAt(b, "events").value);
    NormalEqual(dumps, RowsAt(a, "relations").value, RowsAt(b, "relations").value);
    BlockersEqual(BlockersAt(a).value, BlockersAt(b).value, resolvedA, resolvedB);
    ReplacedEqual(a, b, Normal(dumps, RowsAt(a, "notes").value), Normal(dumps, RowsAt(a, "events").value),
                  Normal(dumps, RowsAt(a, "relations").value), NormalBlockers(BlockersAt(a).value, resolvedA),
                  Normal(dumps, RowsAt(b, "notes").value), Normal(dumps, RowsAt(b, "events").value),
                  Normal(dumps, RowsAt(b, "relations").value), NormalBlockers(BlockersAt(b).value, resolvedB));
  }

  /** A listing holds the reported ids, each once and in increasing order. */
  ghost predicate Reports(listing: seq<int>, ids: set<int>) {
    && (forall i :: i in listing <==> i in ids)
    && (forall i, j :: 0 <= i < j < |listing| ==> listing[i] < listing[j])
  }

  lemma DiffersIff(dumps: Dumps, committed: Index, live: Index, i: int)
    requires Injective(dumps) && AllReadable(committed) && AllReadable(live) && i in committed && i in live
    ensures Differs(dumps, committed, live, i) <==> DoNotAgree(committed, live, i)
  {
    hide Canonical, Agree, Readable, ResolvedIds;
    CanonicalEqual(dumps, committed[i], ResolvedIds(committed), live[i], ResolvedIds(live));
  }

  lemma NothingListed(ids: set<int>)
    ensures Listed(ids) == [] <==> ids == {}
  {
  }

  /** The ids on both sides whose records do not agree. */
  ghost function Disagreeing(committed: Index, live: Index): set<int> {
    set i | i in committed.Keys * live.Keys && DoNotAgree(committed, live, i)
  }

  /**
   The report lists the ids on one side only and the ids whose records do not
   agree; nothing is reported exactly when there are none of either.
   */
  lemma NoDriftIff(dumps: Dumps, committed: Index, live: Index)
    requires Injective(dumps) && AllReadable(committed) && AllReadable(live)
    ensures var d := Diff(dumps, committed, live);
      && Reports(d.added, live.Keys - committed.Keys)
      && Reports(d.removed, committed.Keys - live.Keys)
      && Reports(d.changed, Disagreeing(committed, live))
    ensures NoDrift(Diff(dumps, committed, live)) <==>
      && committed.Keys == live.Keys
      && forall i :: i in committed && i in live ==>
           Agree(committed[i], ResolvedIds(committed), live[i], ResolvedIds(live))
  {
    hide Agree, Readable, ResolvedIds, Differs, Listed;
    assert (set i | i in committed.Keys * live.Keys && Differs(dumps, committed, live, i))
        == Disagreeing(committed, live) by {
      forall i | i in committed && i in live
        ensures Differs(dumps, committed, live, i) <==> DoNotAgree(committed, live, i)
      {
        DiffersIff(dumps, committed, live, i);
      }
    }
    ListedAscends(live.Keys - committed.Keys);
    ListedAscends(committed.Keys - live.Keys);
    ListedAscends(Disagreeing(committed, live));
    NothingListed(live.Keys - committed.Keys);
    NothingListed(committed.Keys - live.Keys);
    NothingListed(Disagreeing(committed, live));
    SameKeys(committed, live);
    NoneDisagree(committed, live);
  }

  lemma SameKeys(committed: Index, live: Index)
    ensures committed.Keys == live.Keys <==> live.Keys - committed.Keys == {} && committed.Keys - live.Keys == {}
  {
  }

  lemma NoneDisagree(committed: Index, live: Index)
    requires AllReadable(committed) && AllReadable(live)
    ensures Disagreeing(committed, live) == {} <==>
      forall i :: i in committed && i in live ==>
        Agree(committed[i], ResolvedIds(committed), live[i], ResolvedIds(live))
  {
    hide Agree, Readable, ResolvedIds;
    if Disagreeing(committed, live) == {} {
      forall i | i in committed && i in live
        ensures Agree(committed[i], ResolvedIds(committed), live[i], ResolvedIds(live))
      {
        assert i !in Disagreeing(committed, live);
      }
    }
  }

  // ---------------------------------------------------------------------
  // Stale edges
  // ---------------------------------------------------------------------

  predicate ListReadable(index: Index, ids: seq<int>) {
    forall k :: 0 <= k < |ids| ==> ids[k] in index && Readable(index[ids[k]])
  }

  /** Blocker edges of the listed records, and those of them whose blocker is resolved. */
  function EdgesOf(index: Index, ids: seq<int>): nat
    requires ListReadable(index, ids)
  {
    if ids == [] then 0
    else EdgesOf(index, ids[..|ids| - 1]) + |BlockersAt(index[ids[|ids| - 1]]).value|
  }

  function StaleOf(index: Index, ids: seq<int>, resolved: set<int>): nat
    requires ListReadable(index, ids)
  {
    if ids == [] then 0
    else
      StaleOf(index, ids[..|ids| - 1], resolved)
      + |Filter((b: int) => b in resolved, BlockersAt(index[ids[|ids| - 1]]).value)|
  }

  lemma AllListed(index: Index)
    requires forall i :: i in index ==> Readable(index[i])
    ensures ListReadable(index, Listed(index.Keys))
  {
    hide Readable, Listed;
    var ids := Listed(index.Keys);
    forall k | 0 <= k < |ids| ensures ids[k] in index && Readable(index[ids[k]]) {
      var id := ids[k];
      assert id in ids;
      assert id in index.Keys;
    }
  }

  function StaleEdges(index: Index): nat
    requires forall i :: i in index ==> Readable(index[i])
  {
    AllListed(index);
    StaleOf(index, Listed(index.Keys), ResolvedIds(index))
  }

  function Edges(index: Index): nat
    requires forall i :: i in index ==> Readable(index[i])
  {
    AllListed(index);
    EdgesOf(index, Listed(index.Keys))
  }

  lemma {:induction false} FilterSplits(blockers: seq<int>, resolved: set<int>)
    ensures |OpenBlockers(blockers, resolved)| + |Filter((b: int) => b in resolved, blockers)| == |blockers|
  {
    if blockers != [] { FilterSplits(blockers[..|blockers| - 1], resolved); }
  }

  /** One restored record: its edges are the open ones, and none of them is stale. */
  lemma RestoredEdges(a: map<string, Json>, resolved: set<int>, b: map<string, Json>)
    requires Readable(a) && Readable(b) && RestoredRecord(a, resolved, b)
    ensures |BlockersAt(b).value| + |Filter((k: int) => k in resolved, BlockersAt(a).value)| == |BlockersAt(a).value|
    ensures |Filter((k: int) => k in resolved, BlockersAt(b).value)| == 0
  {
    hide Renumbered, RowsAt, Filter, BlockersAt;
    var before, after := BlockersAt(a).value, BlockersAt(b).value;
    FilterSplits(before, resolved);
    FilterSplits(after, resolved);
    PrunedTwice(before, after, resolved);
    var left := OpenBlockers(before, resolved);
    assert |multiset(after)| == |after| && |multiset(left)| == |left|;
  }

  lemma {:induction false} RestoredEdgesOf(a: Index, b: Index, ids: seq<int>, resolved: set<int>)
    requires ListReadable(a, ids) && ListReadable(b, ids)
    requires forall k :: 0 <= k < |ids| ==> RestoredRecord(a[ids[k]], resolved, b[ids[k]])
    ensures EdgesOf(a, ids) == EdgesOf(b, ids) + StaleOf(a, ids, resolved) && StaleOf(b, ids, resolved) == 0
  {
    hide RestoredRecord, Readable, BlockersAt, Filter;
    if ids != [] {
      var n := |ids| - 1;
      assert forall k :: 0 <= k < n ==> ids[..n][k] == ids[k];
      RestoredEdgesOf(a, b, ids[..n], resolved);
      RestoredEdges(a[ids[n]], resolved, b[ids[n]]);
    }
  }

  /** A restore drops exactly the edges that were counted as stale, and leaves none. */
  lemma RestoreDropsStaleEdges(snapshot: Index, restored: Index)
    requires AllReadable(snapshot) && AllReadable(restored) && snapshot.Keys == restored.Keys
    requires forall i :: i in snapshot && i in restored ==>
      RestoredRecord(snapshot[i], ResolvedIds(snapshot), restored[i])
    ensures Edges(snapshot) == Edges(restored) + StaleEdges(snapshot) && StaleEdges(restored) == 0
  {
    hide RestoredRecord, Readable, ResolvedIds, Listed, EdgesOf, StaleOf, ListReadable;
    ResolvedKept(snapshot, restored);
    AllListed(snapshot);
    AllListed(restored);
    RestoredEdgesOf(snapshot, restored, Listed(snapshot.Keys), ResolvedIds(snapshot));
  }

  // ---------------------------------------------------------------------
  // Restoring
  // ---------------------------------------------------------------------

  /** Rows with fresh ids, in any order. */
  ghost predicate Renumbered(rows: seq<Json>, rows': seq<Json>) {
    exists numbered: seq<Json> :: Stripped(numbered) == Stripped(rows) && multiset(numbered) == multiset(rows')
  }

  /** An import: other fields kept, rows renumbered and permuted, resolved blockers pruned. */
  ghost predicate RestoredRecord(a: map<string, Json>, resolved: set<int>, b: map<string, Json>)
    requires Readable(a) && Readable(b)
  {
    && a - LISTS == b - LISTS
    && Renumbered(RowsAt(a, "notes").value, RowsAt(b, "notes").value)
    && Renumbered(RowsAt(a, "events").value, RowsAt(b, "events").value)
    && Renumbered(RowsAt(a, "relations").value, RowsAt(b, "relations").value)
    && multiset(OpenBlockers(BlockersAt(a).value, resolved)) == multiset(BlockersAt(b).value)
  }

  /** A list without one of its elements. */
  function Drop(s: seq<Json>, i: nat): seq<Json>
    requires i < |s|
  {
    s[..i] + s[i + 1..]
  }

  lemma Dropped(s: seq<Json>, i: nat)
    requires i < |s|
    ensures multiset(Drop(s, i)) == multiset(s) - multiset{s[i]}
    ensures multiset(Stripped(s)) == multiset(Stripped(Drop(s, i))) + multiset{WithoutId(s[i])}
  {
    assert s == s[..i] + [s[i]] + s[i + 1..];
    assert multiset(s) == multiset(s[..i]) + multiset{s[i]} + multiset(s[i + 1..]);
    var t := Stripped(s);
    var u := Stripped(Drop(s, i));
    assert t == t[..i] + [t[i]] + t[i + 1..];
    assert u == t[..i] + t[i + 1..];
    assert multiset(t) == multiset(t[..i]) + multiset{t[i]} + multiset(t[i + 1..]);
  }

  lemma {:induction false} StrippedMultiset(a: seq<Json>, b: seq<Json>)
    requires multiset(a) == multiset(b)
    ensures multiset(Stripped(a)) == multiset(Stripped(b))
  {
    if a == [] {
      assert |multiset(b)| == |b|;
      assert b == [];
    } else {
      assert a[0] in multiset(b);
      var i :| 0 <= i < |b| && b[i] == a[0];
      hide Stripped, Drop, WithoutId;
      Dropped(a, 0);
      Dropped(b, i);
      assert |Drop(a, 0)| < |a| by { DropShorter(a, 0); }
      StrippedMultiset(Drop(a, 0), Drop(b, i));
    }
  }

  lemma DropShorter(s: seq<Json>, i: nat)
    requires i < |s|
    ensures |Drop(s, i)| < |s|
  {
  }

  lemma RenumberedSame(rows: seq<Json>, rows': seq<Json>)
    requires Renumbered(rows, rows')
    ensures multiset(Stripped(rows)) == multiset(Stripped(rows'))
  {
    var numbered: seq<Json> :| Stripped(numbered) == Stripped(rows) && multiset(numbered) == multiset(rows');
    StrippedMultiset(numbered, rows');
  }

  lemma PrunedTwice(blockers: seq<int>, pruned: seq<int>, resolved: set<int>)
    requires multiset(OpenBlockers(blockers, resolved)) == multiset(pruned)
    ensures OpenBlockers(pruned, resolved) == pruned
  {
    hide Filter;
    var p := (b: int) => b !in resolved;
    FilterMembers(p, blockers);
    forall b | b in pruned ensures p(b) {
      assert b in multiset(pruned);
      assert b in OpenBlockers(blockers, resolved);
    }
    FilterAll(p, pruned);
  }

  lemma RestoredAgrees(a: map<string, Json>, resolved: set<int>, b: map<string, Json>)
    requires Readable(a) && Readable(b) && RestoredRecord(a, resolved, b)
    ensures Agree(a, resolved, b, resolved)
  {
    hide Stripped, OpenBlockers, Renumbered, RowsAt, BlockersAt;
    RenumberedSame(RowsAt(a, "notes").value, RowsAt(b, "notes").value);
    RenumberedSame(RowsAt(a, "events").value, RowsAt(b, "events").value);
    RenumberedSame(RowsAt(a, "relations").value, RowsAt(b, "relations").value);
    PrunedTwice(BlockersAt(a).value, BlockersAt(b).value, resolved);
  }

  /** A restored database is never reported as drift. */
  lemma RestoreIsNoDrift(dumps: Dumps, snapshot: Index, restored: Index)
    requires Injective(dumps) && AllReadable(snapshot) && AllReadable(restored)
    requires snapshot.Keys == restored.Keys
    requires forall i :: i in snapshot && i in restored ==>
      RestoredRecord(snapshot[i], ResolvedIds(snapshot), restored[i])
    ensures NoDrift(Diff(dumps, snapshot, restored))
  {
    ResolvedKept(snapshot, restored);
    hide RestoredRecord, ResolvedIds, Diff, Agree, Readable;
    forall i | i in snapshot && i in restored
      ensures Agree(snapshot[i], ResolvedIds(snapshot), restored[i], ResolvedIds(restored))
    {
      RestoredAgrees(snapshot[i], ResolvedIds(snapshot), restored[i]);
    }
    NoDriftIff(dumps, snapshot, restored);
  }

  lemma ResolvedKept(snapshot: Index, restored: Index)
    requires AllReadable(snapshot) && AllReadable(restored) && snapshot.Keys == restored.Keys
    requires forall i :: i in snapshot && i in restored ==>
      RestoredRecord(snapshot[i], ResolvedIds(snapshot), restored[i])
    ensures ResolvedIds(restored) == ResolvedIds(snapshot)
  {
    hide RestoredRecord, IsResolved, Readable;
    forall i | i in snapshot ensures IsResolved(snapshot[i]) == IsResolved(restored[i]) {
      StatusKept(snapshot[i], ResolvedIds(snapshot), restored[i]);
    }
  }

  lemma StatusKept(a: map<string, Json>, resolved: set<int>, b: map<string, Json>)
    requires Readable(a) && Readable(b) && RestoredRecord(a, resolved, b)
    ensures IsResolved(a) == IsResolved(b)
  {
    hide Renumbered, RowsAt, BlockersAt, OpenBlockers;
    assert "issue" !in LISTS;
    assert "issue" in a - LISTS <==> "issue" in a;
    assert "issue" in b - LISTS <==> "issue" in b;
    if "issue" in a {
      assert (a - LISTS)["issue"] == a["issue"] && (b - LISTS)["issue"] == b["issue"];
    }
  }

  // ---------------------------------------------------------------------
  // Parsing the index
  // ---------------------------------------------------------------------

  type Loads = string -> Option<Json>

  /** A value as a dictionary key: 1, 1.0 and true are one key; a list or a dictionary is none. */
  function AsKey(j: Json): Option<Json> {
    match j
    case Bool(b) => Some(Number(if b then 1 else 0))
    case Float(x) => Some(if x.Floor as real == x then Number(x.Floor) else j)
    case Arr(_) => None
    case Obj(_) => None
    case _ => Some(j)
  }

  /** The number a value compares as, if it is one. */
  function AsNumber(j: Json): Option<real> {
    match j
    case Bool(b) => Some(if b then 1.0 else 0.0)
    case Number(n) => Some(n as real)
    case Float(x) => Some(x)
    case _ => None
  }

  /** Two values are one key exactly when they are equal as numbers, or equal and no numbers. */
  lemma SameKeyIff(a: Json, b: Json)
    ensures AsKey(a).None? <==> a.Arr? || a.Obj?
    ensures AsKey(a).Some? && AsKey(b).Some? ==>
      (AsKey(a) == AsKey(b) <==>
         AsNumber(a) == AsNumber(b) && (AsNumber(a).None? ==> a == b))
  {
  }

  /** The id under which a line's record is filed. */
  function IdOf(rec: Json): Option<Json> {
    match Get(rec, "issue")
    case Some(issue) => (match Get(issue, "id") case Some(id) => AsKey(id) case None => None)
    case None => None
  }

  type Parsed = map<Json, map<string, Json>>

  /** Parsed records whose ids are all integers, as the comparison takes them. */
  function IndexOf(parsed: Parsed): (index: Index)
    requires forall id :: id in parsed ==> id.Number?
    ensures forall n :: n in index <==> Number(n) in parsed
    ensures forall n :: n in index ==> index[n] == parsed[Number(n)]
  {
    map n | n in (set id | id in parsed :: id.value) :: parsed[Number(n)]
  }

  predicate GoodLine(loads: Loads, line: string) {
    loads(line).Some? && loads(line).value.Obj? && IdOf(loads(line).value).Some?
  }

  function LineId(loads: Loads, line: string): Json
    requires GoodLine(loads, line)
  {
    IdOf(loads(line).value).value
  }

  /** Lines, stripped, that are not blank. */
  method ParseIndex(loads: Loads, lines: seq<string>) returns (result: Result<Parsed, Malformed>)
    ensures result.Ok? <==>
      && (forall i :: 0 <= i < |lines| && lines[i] != "" ==> GoodLine(loads, lines[i]))
      && (forall i, j :: 0 <= i < j < |lines| && lines[i] != "" && lines[j] != "" ==>
            GoodLine(loads, lines[i]) && GoodLine(loads, lines[j])
            && LineId(loads, lines[i]) != LineId(loads, lines[j]))
    ensures result.Ok? ==>
      && (forall i :: 0 <= i < |lines| && lines[i] != "" ==>
            LineId(loads, lines[i]) in result.value
            && result.value[LineId(loads, lines[i])] == loads(lines[i]).value.fields)
      && (forall id :: id in result.value ==>
            exists i :: 0 <= i < |lines| && lines[i] != "" && LineId(loads, lines[i]) == id)
  {
    hide IdOf, AsKey, Get;
    var index: Parsed := map[];
    for n := 0 to |lines|
      invariant forall i :: 0 <= i < n && lines[i] != "" ==>
        && GoodLine(loads, lines[i])
        && LineId(loads, lines[i]) in index && index[LineId(loads, lines[i])] == loads(lines[i]).value.fields
      invariant forall i, j :: 0 <= i < j < n && lines[i] != "" && lines[j] != "" ==>
        LineId(loads, lines[i]) != LineId(loads, lines[j])
      invariant forall id :: id in index ==> exists i :: 0 <= i < n && lines[i] != "" && LineId(loads, lines[i]) == id
    {
      var line := lines[n];
      if line != "" {
        var rec := loads(line);
        if rec.None? || !rec.value.Obj? || IdOf(rec.value).None? {
          return Err(Malformed);
        }
        var id := IdOf(rec.value).value;
        if id in index {
          ghost var i :| 0 <= i < n && lines[i] != "" && LineId(loads, lines[i]) == id;
          return Err(Malformed);
        }
        index := index[id := rec.value.fields];
      }
    }
    return Ok(index);
  }
}
