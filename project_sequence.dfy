/** The per-company reference counter of projects: how `ProjectCsl` finds,
    copies or creates the `ir.sequence` row of a company, and the reference
    the host draws from it. The host renders a sequence value as the prefix
    followed by the number, left-padded with zeros to the padding width; that
    rendering is the host's and is stated here as an assumption about it. */
module ProjectSequence {
  import opened Base
  import opened Seqs
  import opened Records

  /** The code under which the add-on keeps its sequences. */
  const Code: string := "project.csl.reference"

  /** The settings of a sequence the add-on creates itself. */
  const DefaultPrefix: string := "PR/"
  const DefaultPadding: nat := 2
  const DefaultNext: nat := 1
  const DefaultIncrement: nat := 1

  // Decimal rendering of the counter.

  predicate IsDigit(c: char)
  {
    '0' <= c <= '9'
  }

  function DigitChar(d: nat): (c: char)
    requires d < 10
    ensures IsDigit(c) && DigitValue(c) == d
  {
    "0123456789"[d]
  }

  function DigitValue(c: char): nat
  {
    if IsDigit(c) then (c as int - '0' as int) as nat else 0
  }

  /** The decimal digits of `n`, most significant first. */
  function Digits(n: nat): (r: string)
    ensures |r| >= 1
    ensures forall i :: 0 <= i < |r| ==> IsDigit(r[i])
  {
    if n < 10 then [DigitChar(n)] else Digits(n / 10) + [DigitChar(n % 10)]
  }

  /** `s` left-padded with zeros to at least `width` characters. */
  function ZeroPad(s: string, width: nat): (r: string)
    ensures |r| >= |s| && |r| >= width
    decreases width - |s|
  {
    if |s| >= width then s else ZeroPad("0" + s, width)
  }

  /** The number a string of decimal digits denotes. */
  function DecimalValue(s: string): nat
  {
    if s == [] then 0 else DecimalValue(s[..|s| - 1]) * 10 + DigitValue(s[|s| - 1])
  }

  lemma {:induction false} DecimalOfDigits(n: nat)
    ensures DecimalValue(Digits(n)) == n
  {
    if n >= 10 {
      DecimalOfDigits(n / 10);
      var d := Digits(n / 10) + [DigitChar(n % 10)];
      assert d[..|d| - 1] == Digits(n / 10);
    }
  }

  lemma {:induction false} DecimalLeadingZero(s: string)
    ensures DecimalValue("0" + s) == DecimalValue(s)
    decreases |s|
  {
    if s != [] {
      var t := "0" + s;
      assert t[..|t| - 1] == "0" + s[..|s| - 1];
      DecimalLeadingZero(s[..|s| - 1]);
    }
  }

  lemma {:induction false} DecimalOfZeroPad(s: string, width: nat)
    ensures DecimalValue(ZeroPad(s, width)) == DecimalValue(s)
    decreases width - |s|
  {
    if |s| < width {
      DecimalOfZeroPad("0" + s, width);
      DecimalLeadingZero(s);
    }
  }

  /** The value `next_by_id` returns for a counter at `number`. */
  function Render(prefix: string, padding: nat, number: nat): string
  {
    prefix + ZeroPad(Digits(number), padding)
  }

  /** Reading the number back out of a rendered value gives the number. */
  lemma RenderRoundTrip(prefix: string, padding: nat, number: nat)
    ensures DecimalValue(Render(prefix, padding, number)[|prefix|..]) == number
  {
    var v := Render(prefix, padding, number);
    assert v[|prefix|..] == ZeroPad(Digits(number), padding);
    DecimalOfZeroPad(Digits(number), padding);
    DecimalOfDigits(number);
  }

  /** Distinct numbers render as distinct values. */
  lemma RenderInjective(prefix: string, padding: nat, a: nat, b: nat)
    requires Render(prefix, padding, a) == Render(prefix, padding, b)
    ensures a == b
  {
    RenderRoundTrip(prefix, padding, a);
    RenderRoundTrip(prefix, padding, b);
  }

  /** A rendered value is never empty, so the `or '/'` fallback of project
      creation never fires for a rendered value. */
  lemma RenderNonEmpty(prefix: string, padding: nat, number: nat)
    ensures Render(prefix, padding, number) != ""
  {
  }

  /** The first sequence values of the add-on's own settings. */
  lemma DefaultRendering()
    ensures Render(DefaultPrefix, DefaultPadding, DefaultNext) == "PR/01"
    ensures Render(DefaultPrefix, DefaultPadding, DefaultNext + DefaultIncrement) == "PR/02"
    ensures Render(DefaultPrefix, DefaultPadding, 100) == "PR/100"
  {
    assert Digits(1) == "1";
    assert ZeroPad("1", 2) == ZeroPad("01", 2) == "01";
    assert Digits(2) == "2";
    assert ZeroPad("2", 2) == ZeroPad("02", 2) == "02";
    assert Digits(100) == Digits(10) + "0" == Digits(1) + "0" + "0" == "100";
  }

  // Finding, copying and creating the company's sequence.

  predicate Matches(row: Sequence, company: Option<nat>)
  {
    row.code == Code && row.company == company
  }

  /** `search([('code', '=', Code), ('company_id', '=', company)], limit=1)`:
      the position of the first matching row. */
  function FindSequence(rows: seq<Sequence>, company: Option<nat>): (r: Option<nat>)
    ensures r.Some? ==> r.value < |rows| && Matches(rows[r.value], company)
    ensures r.Some? ==> forall j :: 0 <= j < r.value ==> !Matches(rows[j], company)
    ensures r.None? ==> forall j :: 0 <= j < |rows| ==> !Matches(rows[j], company)
  {
    if rows == [] then None
    else if Matches(rows[0], company) then Some(0)
    else match FindSequence(rows[1..], company)
      case None => None
      case Some(i) => Some(i + 1)
  }

  /** The sequence the add-on creates when neither the company nor the base
      has one. */
  function NewSequence(id: nat, company: nat): (r: Sequence)
    ensures Matches(r, Some(company))
    ensures r.prefix == "PR/" && r.padding == 2 && r.next == 1 && r.increment == 1
  {
    Sequence(id, Code, Some(company), DefaultPrefix, DefaultPadding, DefaultNext, DefaultIncrement)
  }

  /** `base.copy({'company_id': company})`. */
  function CopySequence(base: Sequence, id: nat, company: nat): Sequence
  {
    base.(id := id, company := Some(company))
  }

  /** `_get_or_create_company_sequence`: the table afterwards and the position
      of the company's sequence in it. `freshId` is the id a new row gets. */
  function Resolve(rows: seq<Sequence>, company: nat, freshId: nat): (r: (seq<Sequence>, nat))
    ensures r.1 < |r.0| && Matches(r.0[r.1], Some(company))
    ensures |rows| <= |r.0| <= |rows| + 1 && r.0[..|rows|] == rows
  {
    match FindSequence(rows, Some(company))
    case Some(i) => (rows, i)
    case None =>
      match FindSequence(rows, None)
      case Some(b) => (rows + [CopySequence(rows[b], freshId, company)], |rows|)
      case None => (rows + [NewSequence(freshId, company)], |rows|)
  }

  lemma {:induction false} FindAfterAppend(rows: seq<Sequence>, row: Sequence, company: Option<nat>)
    requires FindSequence(rows, company).None? && Matches(row, company)
    ensures FindSequence(rows + [row], company) == Some(|rows|)
  {
    if rows != [] {
      assert (rows + [row])[1..] == rows[1..] + [row];
      FindAfterAppend(rows[1..], row, company);
    }
  }

  /** The resolution order: the company's own sequence if there is one; else
      a copy of the company-less base sequence; else a new `PR/` sequence.
      Afterwards a search finds the row returned. */
  lemma ResolveOrder(rows: seq<Sequence>, company: nat, freshId: nat)
    ensures var r := Resolve(rows, company, freshId);
      && (FindSequence(rows, Some(company)).Some? ==> r == (rows, FindSequence(rows, Some(company)).value))
      && (FindSequence(rows, Some(company)).None? && FindSequence(rows, None).Some? ==>
            r.0 == rows + [CopySequence(rows[FindSequence(rows, None).value], freshId, company)])
      && (FindSequence(rows, Some(company)).None? && FindSequence(rows, None).None? ==>
            r.0 == rows + [NewSequence(freshId, company)])
      && FindSequence(r.0, Some(company)) == Some(r.1)
  {
    var r := Resolve(rows, company, freshId);
    if FindSequence(rows, Some(company)).None? {
      FindAfterAppend(rows, r.0[|rows|], Some(company));
    }
  }

  /** `next_by_id()`: the value at the counter, and the table with the
      counter advanced by the increment. */
  function NextById(rows: seq<Sequence>, i: nat): (r: (string, seq<Sequence>))
    requires i < |rows|
    ensures |r.1| == |rows| && r.1[i] == rows[i].(next := rows[i].next + rows[i].increment)
    ensures forall j :: 0 <= j < |rows| && j != i ==> r.1[j] == rows[j]
    ensures r.0 == Render(rows[i].prefix, rows[i].padding, rows[i].next)
  {
    (Render(rows[i].prefix, rows[i].padding, rows[i].next), rows[i := rows[i].(next := rows[i].next + rows[i].increment)])
  }

  /** The reference a project without one gets, and the table afterwards. */
  function Draw(rows: seq<Sequence>, company: nat, freshId: nat): (string, seq<Sequence>)
  {
    var (rows', i) := Resolve(rows, company, freshId);
    NextById(rows', i)
  }

  /** The references `k` successive projects of one company draw, and the
      table afterwards; the `j`-th new row, if any, gets id `freshId + j`. */
  function DrawMany(rows: seq<Sequence>, company: nat, k: nat, freshId: nat): (r: (seq<string>, seq<Sequence>))
    ensures |r.0| == k
    decreases k
  {
    if k == 0 then ([], rows)
    else
      var (v, rows') := Draw(rows, company, freshId);
      var (vs, rows'') := DrawMany(rows', company, k - 1, freshId + 1);
      ([v] + vs, rows'')
  }

  /** Every row the add-on may draw from steps forward. */
  ghost predicate Increasing(rows: seq<Sequence>)
  {
    forall j :: 0 <= j < |rows| ==> rows[j].increment > 0
  }

  lemma ResolveIncreasing(rows: seq<Sequence>, company: nat, freshId: nat)
    requires Increasing(rows)
    ensures Increasing(Resolve(rows, company, freshId).0)
  {
  }

  /** After the first draw, every later draw of the company takes the same
      row, whose prefix, padding and increment stay fixed while its counter
      advances by the increment each time. */
  lemma {:induction false} DrawManyValues(rows: seq<Sequence>, company: nat, k: nat, freshId: nat)
    requires FindSequence(rows, Some(company)).Some?
    ensures var i := FindSequence(rows, Some(company)).value;
      var row := rows[i];
      forall j :: 0 <= j < k ==> DrawMany(rows, company, k, freshId).0[j] == Render(row.prefix, row.padding, row.next + j * row.increment)
    decreases k
  {
    var i := FindSequence(rows, Some(company)).value;
    var row := rows[i];
    if k > 0 {
      var rows' := NextById(rows, i).1;
      var row' := rows'[i];
      assert FindSequence(rows', Some(company)) == Some(i) by {
        FindUnchangedPrefix(rows, rows', Some(company), i);
      }
      DrawManyValues(rows', company, k - 1, freshId + 1);
      var vs := DrawMany(rows, company, k, freshId).0;
      forall j | 0 <= j < k
        ensures vs[j] == Render(row.prefix, row.padding, row.next + j * row.increment)
      {
        if j > 0 {
          assert vs[j] == DrawMany(rows', company, k - 1, freshId + 1).0[j - 1];
          StepShift(row.next, row.increment, j);
        }
      }
    }
  }

  lemma {:induction false} FindUnchangedPrefix(rows: seq<Sequence>, rows': seq<Sequence>, company: Option<nat>, i: nat)
    requires FindSequence(rows, company) == Some(i)
    requires |rows'| == |rows| && Matches(rows'[i], company)
    requires forall j :: 0 <= j < i ==> rows'[j] == rows[j]
    ensures FindSequence(rows', company) == Some(i)
  {
    if i > 0 {
      FindUnchangedPrefix(rows[1..], rows'[1..], company, i - 1);
    }
  }

  /** Drawing from a table is drawing from the table after resolution: the
      first draw resolves, and every draw takes the row it found. */
  lemma DrawManyAfterResolve(rows: seq<Sequence>, company: nat, k: nat, freshId: nat)
    requires k > 0
    ensures DrawMany(rows, company, k, freshId) == DrawMany(Resolve(rows, company, freshId).0, company, k, freshId)
  {
    ResolveOrder(rows, company, freshId);
  }

  lemma StepShift(start: nat, step: nat, j: nat)
    requires j > 0
    ensures (start + step) + (j - 1) * step == start + j * step
  {
    assert j * step == (j - 1) * step + step;
  }

  lemma Spread(start: nat, step: nat, a: nat, b: nat)
    requires a < b && step > 0
    ensures start + a * step < start + b * step
  {
    assert b * step == a * step + (b - a) * step;
  }

  /** References rendered from a counter that steps forward are pairwise
      distinct. */
  lemma RenderedDistinct(prefix: string, padding: nat, start: nat, step: nat, vs: seq<string>)
    requires step > 0
    requires forall j :: 0 <= j < |vs| ==> vs[j] == Render(prefix, padding, start + j * step)
    ensures NoDuplicates(vs)
  {
    forall a, b | 0 <= a < b < |vs| ensures vs[a] != vs[b] {
      Spread(start, step, a, b);
      if vs[a] == vs[b] {
        RenderInjective(prefix, padding, start + a * step, start + b * step);
      }
    }
  }

  /** Successive projects of one company get pairwise distinct references,
      provided the company's counter steps forward. */
  lemma DrawManyDistinct(rows: seq<Sequence>, company: nat, k: nat, freshId: nat)
    requires Increasing(rows)
    ensures NoDuplicates(DrawMany(rows, company, k, freshId).0)
  {
    if k > 0 {
      var (rows', i) := Resolve(rows, company, freshId);
      ResolveOrder(rows, company, freshId);
      ResolveIncreasing(rows, company, freshId);
      DrawManyAfterResolve(rows, company, k, freshId);
      DrawManyValues(rows', company, k, freshId);
      var row := rows'[i];
      RenderedDistinct(row.prefix, row.padding, row.next, row.increment, DrawMany(rows', company, k, freshId).0);
    }
  }

  /** In a database without sequences, the first two projects of a company
      get `PR/01` and `PR/02`. */
  lemma FirstReferences(company: nat, freshId: nat)
    ensures DrawMany([], company, 2, freshId).0 == ["PR/01", "PR/02"]
  {
    DefaultRendering();
    DrawManyValues([NewSequence(freshId, company)], company, 2, freshId + 1);
  }
}
