/** Scope-of-work templates (`scope.work.set`, `scope.work.line`) and the
    per-project copies of their lines (`project.scope.line`): the record
    shapes, the `sequence` default, the required `name`, the cascade on
    delete, and the `_order = 'sequence, id'` in which the host returns
    lines. */
module ScopeWork {
  import opened Base
  import opened Seqs

  /** Default of `sequence` on both line kinds. */
  const DefaultSequence: int := 10

  datatype ScopeWorkSet = ScopeWorkSet(name: string)

  datatype ScopeWorkLine = ScopeWorkLine(id: nat, name: string, sequence: int, setId: nat)

  datatype ProjectScopeLine = ProjectScopeLine(id: nat, name: string, sequence: int, projectId: nat)

  /** The sort key of `_order = 'sequence, id'`. */
  datatype OrderKey = OrderKey(sequence: int, id: nat)

  predicate KeyLe(a: OrderKey, b: OrderKey)
  {
    a.sequence < b.sequence || (a.sequence == b.sequence && a.id <= b.id)
  }

  function WorkLineKey(l: ScopeWorkLine): OrderKey
  {
    OrderKey(l.sequence, l.id)
  }

  function ScopeLineKey(l: ProjectScopeLine): OrderKey
  {
    OrderKey(l.sequence, l.id)
  }

  /** `KeyLe` is a total order on keys: the ordering is well defined. */
  lemma KeyLeIsTotalOrder(a: OrderKey, b: OrderKey, c: OrderKey)
    ensures KeyLe(a, a)
    ensures KeyLe(a, b) || KeyLe(b, a)
    ensures KeyLe(a, b) && KeyLe(b, a) ==> a == b
    ensures KeyLe(a, b) && KeyLe(b, c) ==> KeyLe(a, c)
  {
  }

  ghost predicate SortedBy<T>(s: seq<T>, key: T -> OrderKey)
  {
    forall i, j :: 0 <= i < j < |s| ==> KeyLe(key(s[i]), key(s[j]))
  }

  function Insert<T>(x: T, s: seq<T>, key: T -> OrderKey): seq<T>
  {
    if s == [] || KeyLe(key(x), key(s[0])) then [x] + s
    else [s[0]] + Insert(x, s[1..], key)
  }

  /** The host's read order of a one-to-many of lines. */
  function SortBy<T>(s: seq<T>, key: T -> OrderKey): seq<T>
  {
    if s == [] then [] else Insert(s[0], SortBy(s[1..], key), key)
  }

  lemma {:induction false} InsertContents<T(!new)>(x: T, s: seq<T>, key: T -> OrderKey)
    ensures multiset(Insert(x, s, key)) == multiset(s) + multiset{x}
    ensures |Insert(x, s, key)| == |s| + 1
    ensures forall y :: y in Insert(x, s, key) <==> y == x || y in s
  {
    if !(s == [] || KeyLe(key(x), key(s[0]))) {
      InsertContents(x, s[1..], key);
      assert s == [s[0]] + s[1..];
    }
  }

  lemma {:induction false} InsertSorted<T(!new)>(x: T, s: seq<T>, key: T -> OrderKey)
    requires SortedBy(s, key)
    ensures SortedBy(Insert(x, s, key), key)
  {
    var r := Insert(x, s, key);
    if s == [] || KeyLe(key(x), key(s[0])) {
      forall j | 1 <= j < |r| ensures KeyLe(key(r[0]), key(r[j])) {
        KeyLeIsTotalOrder(key(x), key(s[0]), key(s[j - 1]));
      }
    } else {
      var t := Insert(x, s[1..], key);
      InsertSorted(x, s[1..], key);
      InsertContents(x, s[1..], key);
      forall j | 0 <= j < |t| ensures KeyLe(key(s[0]), key(t[j])) {
        if t[j] == x {
          KeyLeIsTotalOrder(key(x), key(s[0]), key(x));
        } else {
          assert t[j] in t;
          var k :| 0 <= k < |s[1..]| && s[1..][k] == t[j];
          assert s[k + 1] == t[j];
        }
      }
      assert r == [s[0]] + t;
    }
  }

  /** Reading lines in `_order` yields them sorted, and no line is lost or
      duplicated. */
  lemma {:induction false} SortByFacts<T(!new)>(s: seq<T>, key: T -> OrderKey)
    ensures SortedBy(SortBy(s, key), key)
    ensures multiset(SortBy(s, key)) == multiset(s)
    ensures |SortBy(s, key)| == |s|
  {
    if s != [] {
      SortByFacts(s[1..], key);
      InsertSorted(s[0], SortBy(s[1..], key), key);
      InsertContents(s[0], SortBy(s[1..], key), key);
      assert s == [s[0]] + s[1..];
    }
  }

  /** Lines already in `_order` are read back as they are. */
  lemma {:induction false} SortByOfSorted<T(!new)>(s: seq<T>, key: T -> OrderKey)
    requires SortedBy(s, key)
    ensures SortBy(s, key) == s
  {
    if s != [] {
      SortByOfSorted(s[1..], key);
      assert SortBy(s[1..], key) == s[1..];
      assert s == [s[0]] + s[1..];
    }
  }

  /** Creating a template line: `name` is required, `sequence` defaults to 10. */
  function NewWorkLine(id: nat, name: Option<string>, sequence: Option<int>, setId: nat): (r: Result<ScopeWorkLine>)
    ensures name.None? <==> r == Err(MissingRequired("name"))
    ensures r.Ok? ==> r.value.id == id && r.value.setId == setId && Some(r.value.name) == name
    ensures r.Ok? && sequence.None? ==> r.value.sequence == DefaultSequence
    ensures r.Ok? && sequence.Some? ==> r.value.sequence == sequence.value
  {
    match name
    case None => Err(MissingRequired("name"))
    case Some(n) => Ok(ScopeWorkLine(id, n, if sequence.Some? then sequence.value else DefaultSequence, setId))
  }

  /** Creating a project scope line: `name` is required, `sequence` defaults to 10. */
  function NewScopeLine(id: nat, name: Option<string>, sequence: Option<int>, projectId: nat): (r: Result<ProjectScopeLine>)
    ensures name.None? <==> r == Err(MissingRequired("name"))
    ensures r.Ok? ==> r.value.id == id && r.value.projectId == projectId && Some(r.value.name) == name
    ensures r.Ok? && sequence.None? ==> r.value.sequence == DefaultSequence
    ensures r.Ok? && sequence.Some? ==> r.value.sequence == sequence.value
  {
    match name
    case None => Err(MissingRequired("name"))
    case Some(n) => Ok(ProjectScopeLine(id, n, if sequence.Some? then sequence.value else DefaultSequence, projectId))
  }

  /** Creating a template set: `name` is required. */
  function NewWorkSet(name: Option<string>): (r: Result<ScopeWorkSet>)
    ensures name.None? <==> r == Err(MissingRequired("name"))
    ensures r.Ok? ==> Some(r.value.name) == name
  {
    match name
    case None => Err(MissingRequired("name"))
    case Some(n) => Ok(ScopeWorkSet(n))
  }

  function InSet(setId: nat): ScopeWorkLine -> bool
  {
    (l: ScopeWorkLine) => l.setId == setId
  }

  function NotInSet(setId: nat): ScopeWorkLine -> bool
  {
    (l: ScopeWorkLine) => l.setId != setId
  }

  /** `work_line_ids` of a set, in `_order`. */
  function WorkLinesOf(lines: seq<ScopeWorkLine>, setId: nat): seq<ScopeWorkLine>
  {
    SortBy(Filter(lines, InSet(setId)), WorkLineKey)
  }

  /** The lines of a template set are exactly the lines that name it, sorted. */
  lemma WorkLinesOfFacts(lines: seq<ScopeWorkLine>, setId: nat)
    ensures SortedBy(WorkLinesOf(lines, setId), WorkLineKey)
    ensures forall l :: l in WorkLinesOf(lines, setId) <==> l in lines && l.setId == setId
    ensures multiset(WorkLinesOf(lines, setId)) == multiset(Filter(lines, InSet(setId)))
  {
    var f := Filter(lines, InSet(setId));
    SortByFacts(f, WorkLineKey);
    forall l ensures l in WorkLinesOf(lines, setId) <==> l in f {
      assert l in WorkLinesOf(lines, setId) <==> l in multiset(WorkLinesOf(lines, setId));
      assert l in f <==> l in multiset(f);
    }
  }

  /** Deleting a template set deletes its lines (`ondelete='cascade'`). */
  function DeleteWorkSet(sets: map<nat, ScopeWorkSet>, lines: seq<ScopeWorkLine>, setId: nat)
    : (r: (map<nat, ScopeWorkSet>, seq<ScopeWorkLine>))
    ensures r.0.Keys == sets.Keys - {setId}
    ensures forall k :: k in r.0 ==> r.0[k] == sets[k]
    ensures forall l :: l in r.1 <==> l in lines && l.setId != setId
    ensures forall s :: s != setId ==> WorkLinesOf(r.1, s) == WorkLinesOf(lines, s)
  {
    var kept := Filter(lines, NotInSet(setId));
    forall s | s != setId ensures WorkLinesOf(kept, s) == WorkLinesOf(lines, s) {
      FilterOfFilter(lines, setId, s);
    }
    (sets - {setId}, kept)
  }

  lemma {:induction false} FilterOfFilter(lines: seq<ScopeWorkLine>, gone: nat, s: nat)
    requires s != gone
    ensures Filter(Filter(lines, NotInSet(gone)), InSet(s)) == Filter(lines, InSet(s))
  {
    if lines != [] {
      FilterOfFilter(lines[1..], gone, s);
      var rest := Filter(lines[1..], NotInSet(gone));
      if lines[0].setId != gone {
        var kept := [lines[0]] + rest;
        assert Filter(lines, NotInSet(gone)) == kept;
        assert kept[1..] == rest;
      } else {
        assert Filter(lines, NotInSet(gone)) == rest;
      }
    }
  }
}
