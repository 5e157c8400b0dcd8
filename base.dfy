/** Values shared by every part of the model: optional values, the user
    errors the add-on raises, and the field-value dictionaries (`vals`) that
    the host's create and write entry points receive. */
module Base {

  datatype Option<+T> = None | Some(value: T)

  /** The user-facing errors. The first three are the add-on's own
      `UserError`s; the others are the host's validation of required fields,
      of many-to-one references and of selection values, which the add-on
      relies on. */
  datatype Error =
    | NoQuotationLines
    | QuotationNotConfirmed(quotation: string)
    | QuotationWithoutProducts(quotation: string)
    | MissingRequired(field: string)
    | DanglingReference(field: string)
    | InvalidSelection(field: string)

  datatype Result<+T> = Ok(value: T) | Err(error: Error)

  /** The outcome of an operation that returns nothing but may fail. */
  datatype Outcome = Pass | Fail(error: Error)

  /** One value of a `vals` dictionary: a character field, a many-to-one id,
      or `False`. Record ids are never 0 in the host, so every `Link` is
      truthy. */
  datatype Value = Text(s: string) | Link(id: nat) | Unset

  type Vals = map<string, Value>

  /** `vals.get(key)`: `False` when the key is absent. */
  function Get(vals: Vals, key: string): Value
  {
    if key in vals then vals[key] else Unset
  }

  /** Python truthiness of a field value. */
  predicate Truthy(v: Value)
  {
    match v
    case Text(s) => s != ""
    case Link(_) => true
    case Unset => false
  }

  /** A character field as stored on a record: `None` stands for `False`. */
  function TextOf(v: Value): Option<string>
  {
    if v.Text? then Some(v.s) else None
  }

  /** A many-to-one field as stored on a record. */
  function LinkOf(v: Value): Option<nat>
  {
    if v.Link? then Some(v.id) else None
  }

  /** Python truthiness of a stored character field. */
  predicate Filled(c: Option<string>)
  {
    c.Some? && c.value != ""
  }

  /** Python `a or b` on two character fields. */
  function OrElse(a: Option<string>, b: Option<string>): Option<string>
  {
    if Filled(a) then a else b
  }
}

/** Sequence helpers for the host's recordsets: filtering a table and the
    de-duplicating `mapped` of a many-to-one field. */
module Seqs {

  /** The elements of `s` that satisfy `f`, in their original order. */
  function Filter<T(!new)>(s: seq<T>, f: T -> bool): (r: seq<T>)
    ensures |r| <= |s|
    ensures forall x :: x in r <==> x in s && f(x)
  {
    if s == [] then [] else (if f(s[0]) then [s[0]] else []) + Filter(s[1..], f)
  }

  lemma {:induction false} FilterAppend<T(!new)>(a: seq<T>, b: seq<T>, f: T -> bool)
    ensures Filter(a + b, f) == Filter(a, f) + Filter(b, f)
  {
    if a == [] {
      assert a + b == b;
    } else {
      assert (a + b)[1..] == a[1..] + b;
      FilterAppend(a[1..], b, f);
    }
  }

  lemma {:induction false} FilterNone<T(!new)>(s: seq<T>, f: T -> bool)
    requires forall i :: 0 <= i < |s| ==> !f(s[i])
    ensures Filter(s, f) == []
  {
    if s != [] {
      FilterNone(s[1..], f);
    }
  }

  lemma {:induction false} FilterAll<T(!new)>(s: seq<T>, f: T -> bool)
    requires forall i :: 0 <= i < |s| ==> f(s[i])
    ensures Filter(s, f) == s
  {
    if s != [] {
      FilterAll(s[1..], f);
      assert s == [s[0]] + s[1..];
    }
  }

  predicate NoDuplicates<T(==)>(s: seq<T>)
  {
    forall i, j :: 0 <= i < j < |s| ==> s[i] != s[j]
  }

  /** The first occurrence of every element of `s`, in order: what the host
      returns for `lines.mapped_field` on a many-to-one field. */
  function Distinct<T(==,!new)>(s: seq<T>): (r: seq<T>)
    ensures forall x :: x in r <==> x in s
    ensures NoDuplicates(r)
  {
    if s == [] then []
    else
      var d := Distinct(s[..|s| - 1]);
      assert forall x :: x in s <==> x in s[..|s| - 1] || x == s[|s| - 1] by {
        assert s == s[..|s| - 1] + [s[|s| - 1]];
      }
      if s[|s| - 1] in d then d else d + [s[|s| - 1]]
  }

  /** The elements of `s`, as a set. */
  function Elements<T(!new)>(s: seq<T>): (r: set<T>)
    ensures forall x :: x in r <==> x in s
  {
    set x | x in s
  }

  /** A sequence has at most as many distinct elements as it is long, and
      exactly as many when it has no duplicates. */
  lemma {:induction false} ElementsCardinality<T(!new)>(s: seq<T>)
    ensures |Elements(s)| <= |s|
    ensures NoDuplicates(s) ==> |Elements(s)| == |s|
  {
    if s != [] {
      var t := s[1..];
      ElementsCardinality(t);
      assert Elements(s) == Elements(t) + {s[0]} by {
        assert s == [s[0]] + t;
      }
      if NoDuplicates(s) {
        assert NoDuplicates(t);
        assert s[0] !in t;
      }
    }
  }

  /** The number of distinct elements of `s`. */
  lemma DistinctCardinality<T(!new)>(s: seq<T>)
    ensures |Distinct(s)| == |Elements(s)| <= |s|
  {
    var d := Distinct(s);
    ElementsCardinality(d);
    ElementsCardinality(s);
    assert Elements(d) == Elements(s);
  }
}
