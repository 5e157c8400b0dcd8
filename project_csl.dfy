/** The project aggregate `project.csl`: creation with its reference, the
    status buttons, the roll-up counts and the lists behind the smart
    buttons, the replacement of scope lines when a scope template is chosen,
    and what deleting a project does to the records that point at it. */
module ProjectCsl {
  import opened Base
  import opened Seqs
  import opened ScopeWork
  import opened Records
  import opened ProjectSequence

  // Creation.

  /** `vals.get('company_id') or self.env.company.id`. */
  function CompanyOf(vals: Vals, envCompany: nat): (c: nat)
    ensures Get(vals, "company_id").Link? ==> c == Get(vals, "company_id").id
    ensures !Get(vals, "company_id").Link? ==> c == envCompany
  {
    if Get(vals, "company_id").Link? then Get(vals, "company_id").id else envCompany
  }

  /** The values after the reference step of `ProjectCsl.create`, and the
      sequence table afterwards: a truthy `project_reference` is kept;
      otherwise the company's sequence is drawn from, and `'/'` stands in for
      an empty value. */
  function WithReference(vals: Vals, rows: seq<Sequence>, company: nat, freshId: nat): (r: (Vals, seq<Sequence>))
  {
    if Truthy(Get(vals, "project_reference")) then (vals, rows)
    else
      var (v, rows') := Draw(rows, company, freshId);
      (vals["project_reference" := Text(if v != "" then v else "/")], rows')
  }

  /** The selection key of a state. */
  function StateName(st: State): string
  {
    match st
    case Draft => "draft"
    case Confirm => "confirm"
    case Done => "done"
  }

  /** The stored `state` from the values: the default `draft` when the key is
      absent; no state when it is given as a falsy value; the state of a
      selection key; an invalid-selection error for anything else. */
  function StateOf(vals: Vals): (r: Result<Option<State>>)
    ensures "state" !in vals ==> r == Ok(Some(Draft))
    ensures "state" in vals && !Truthy(vals["state"]) ==> r == Ok(None)
    ensures "state" in vals && vals["state"].Link? ==> r.Err?
    ensures "state" in vals && vals["state"].Text? && vals["state"].s != "" ==>
      (r.Ok? <==> vals["state"].s == "draft" || vals["state"].s == "confirm" || vals["state"].s == "done")
    ensures r.Ok? && r.value.Some? && "state" in vals ==> vals["state"] == Text(StateName(r.value.value))
    ensures r.Err? ==> r.error == InvalidSelection("state")
  {
    if "state" !in vals then Ok(Some(Draft))
    else
      match vals["state"]
      case Unset => Ok(None)
      case Text(s) =>
        if s == "" then Ok(None)
        else if s == "draft" then Ok(Some(Draft))
        else if s == "confirm" then Ok(Some(Confirm))
        else if s == "done" then Ok(Some(Done))
        else Err(InvalidSelection("state"))
      case Link(_) => Err(InvalidSelection("state"))
  }

  /** The record the host creates from the values: the required `name`,
      `customer_id` and `company_id` are checked in that order (a
      `company_id` absent from the values takes its default, one given as
      `False` is missing), and a template must exist. */
  function ProjectOf(vals: Vals, company: nat, workSets: set<nat>): (r: Result<Project>)
    ensures !Get(vals, "name").Text? ==> r == Err(MissingRequired("name"))
    ensures Get(vals, "name").Text? && !Get(vals, "customer_id").Link? ==> r == Err(MissingRequired("customer_id"))
    ensures Get(vals, "name").Text? && Get(vals, "customer_id").Link? && "company_id" in vals && !vals["company_id"].Link? ==>
      r == Err(MissingRequired("company_id"))
    ensures r.Ok? ==> && Get(vals, "name") == Text(r.value.name)
                      && Get(vals, "customer_id") == Link(r.value.customer)
                      && ("company_id" !in vals || vals["company_id"].Link?)
                      && r.value.company == company
                      && Some(r.value.reference) == OrElse(TextOf(Get(vals, "project_reference")), Some(""))
                      && Ok(r.value.state) == StateOf(vals)
                      && r.value.scopeSet == LinkOf(Get(vals, "scope_work_set_id"))
                      && (r.value.scopeSet.Some? ==> r.value.scopeSet.value in workSets)
  {
    var name := Get(vals, "name");
    var customer := Get(vals, "customer_id");
    var scope := Get(vals, "scope_work_set_id");
    if !name.Text? then Err(MissingRequired("name"))
    else if !customer.Link? then Err(MissingRequired("customer_id"))
    else if "company_id" in vals && !vals["company_id"].Link? then Err(MissingRequired("company_id"))
    else if StateOf(vals).Err? then Err(StateOf(vals).error)
    else if scope.Link? && scope.id !in workSets then Err(DanglingReference("scope_work_set_id"))
    else
      var reference := if Filled(TextOf(Get(vals, "project_reference"))) then TextOf(Get(vals, "project_reference")).value else "";
      Ok(Project(name.s, reference, customer.id, company, StateOf(vals).value, LinkOf(scope)))
  }

  /** A `company_id` given as `False` is not replaced by the current company:
      the record is refused, although the reference is drawn from the
      current company's sequence. */
  lemma FalseCompanyRefused(vals: Vals, envCompany: nat, workSets: set<nat>)
    requires Get(vals, "name").Text? && Get(vals, "customer_id").Link?
    requires "company_id" in vals && vals["company_id"] == Unset
    ensures CompanyOf(vals, envCompany) == envCompany
    ensures ProjectOf(vals, CompanyOf(vals, envCompany), workSets) == Err(MissingRequired("company_id"))
  {
  }

  /** A truthy reference in the values is kept unchanged, and the sequences
      are left alone. */
  lemma CreateKeepsGivenReference(vals: Vals, rows: seq<Sequence>, company: nat, freshId: nat)
    requires Truthy(Get(vals, "project_reference"))
    ensures WithReference(vals, rows, company, freshId) == (vals, rows)
  {
  }

  /** Without a truthy reference, the project gets the next value of its
      company's sequence, which is never empty, so never `'/'` in this model;
      nothing else in the values changes. */
  lemma CreateDrawsReference(vals: Vals, rows: seq<Sequence>, company: nat, freshId: nat)
    requires !Truthy(Get(vals, "project_reference"))
    ensures var (rows', i) := Resolve(rows, company, freshId);
      var (v, rows'') := WithReference(vals, rows, company, freshId);
      && v == vals["project_reference" := Text(Render(rows'[i].prefix, rows'[i].padding, rows'[i].next))]
      && rows'' == NextById(rows', i).1
      && Render(rows'[i].prefix, rows'[i].padding, rows'[i].next) != "/"
  {
    var (rows', i) := Resolve(rows, company, freshId);
    var value := Render(rows'[i].prefix, rows'[i].padding, rows'[i].next);
    RenderNonEmpty(rows'[i].prefix, rows'[i].padding, rows'[i].next);
    if value == "/" {
      var row := rows'[i];
      assert |ZeroPad(Digits(row.next), row.padding)| >= 1;
      assert |row.prefix| == 0;
      assert value[0] == ZeroPad(Digits(row.next), row.padding)[0];
      ZeroPadDigits(Digits(row.next), row.padding);
    }
  }

  /** A zero-padded decimal consists of digits only. */
  lemma {:induction false} ZeroPadDigits(s: string, width: nat)
    requires forall i :: 0 <= i < |s| ==> IsDigit(s[i])
    ensures forall i :: 0 <= i < |ZeroPad(s, width)| ==> IsDigit(ZeroPad(s, width)[i])
    decreases width - |s|
  {
    if |s| < width {
      var t := "0" + s;
      assert forall i :: 0 <= i < |t| ==> IsDigit(t[i]) by {
        forall i | 0 <= i < |t| ensures IsDigit(t[i]) {
          if i > 0 { assert t[i] == s[i - 1]; }
        }
      }
      ZeroPadDigits(t, width);
    }
  }

  /** Two projects created one after the other in the same company, both
      without a reference, get different references when the company's
      counter steps forward. */
  lemma SuccessiveProjectsDistinct(vals1: Vals, vals2: Vals, rows: seq<Sequence>, company: nat, id1: nat, id2: nat)
    requires Increasing(rows)
    requires !Truthy(Get(vals1, "project_reference")) && !Truthy(Get(vals2, "project_reference"))
    ensures var (v1, rows1) := WithReference(vals1, rows, company, id1);
      var (v2, _) := WithReference(vals2, rows1, company, id2);
      v1["project_reference"] != v2["project_reference"]
  {
    var (a, rows1) := Draw(rows, company, id1);
    var (b, _) := Draw(rows1, company, id2);
    var (rows', i) := Resolve(rows, company, id1);
    ResolveOrder(rows, company, id1);
    FindUnchangedPrefix(rows', rows1, Some(company), i);
    assert Draw(rows1, company, id2) == Draw(rows1, company, id1 + 1);
    DrawManyDistinct(rows, company, 2, id1);
    var drawn := DrawMany(rows, company, 2, id1).0;
    assert drawn == [a, b];
    assert drawn[0] != drawn[1];
    RenderNonEmpty(rows'[i].prefix, rows'[i].padding, rows'[i].next);
    assert a == Render(rows'[i].prefix, rows'[i].padding, rows'[i].next);
    var row1 := rows1[i];
    RenderNonEmpty(row1.prefix, row1.padding, row1.next);
    assert b == Render(row1.prefix, row1.padding, row1.next);
    assert WithReference(vals1, rows, company, id1).0["project_reference"] == Text(a);
    assert WithReference(vals2, rows1, company, id2).0["project_reference"] == Text(b);
  }

  /** `_get_or_create_company_sequence`. */
  method ResolveCompanySequence(env: Env, company: nat) returns (i: nat)
    requires env.Valid()
    modifies env`sequences, env`nextId
    ensures env.Valid()
    ensures (env.sequences, i) == Resolve(old(env.sequences), company, old(env.nextId))
    ensures env.nextId == old(env.nextId) + (|env.sequences| - |old(env.sequences)|)
  {
    var own := FindSequence(env.sequences, Some(company));
    if own.Some? {
      return own.value;
    }
    var base := FindSequence(env.sequences, None);
    if base.Some? {
      env.sequences := env.sequences + [CopySequence(env.sequences[base.value], env.nextId, company)];
    } else {
      env.sequences := env.sequences + [NewSequence(env.nextId, company)];
    }
    i := |env.sequences| - 1;
    env.nextId := env.nextId + 1;
  }

  /** `seq.next_by_id()`. */
  method NextValue(env: Env, i: nat) returns (value: string)
    requires env.Valid() && i < |env.sequences|
    modifies env`sequences
    ensures env.Valid()
    ensures (value, env.sequences) == NextById(old(env.sequences), i)
  {
    var row := env.sequences[i];
    value := Render(row.prefix, row.padding, row.next);
    env.sequences := env.sequences[i := row.(next := row.next + row.increment)];
  }

  /** The reference step of `ProjectCsl.create`. */
  method AssignReference(env: Env, vals: Vals, company: nat) returns (v: Vals)
    requires env.Valid()
    modifies env`sequences, env`nextId
    ensures env.Valid()
    ensures (v, env.sequences) == WithReference(vals, old(env.sequences), company, old(env.nextId))
    ensures env.nextId == old(env.nextId) + (|env.sequences| - |old(env.sequences)|)
  {
    v := vals;
    if !Truthy(Get(vals, "project_reference")) {
      var i := ResolveCompanySequence(env, company);
      var value := NextValue(env, i);
      v := v["project_reference" := Text(if value != "" then value else "/")];
    }
  }

  /** `ProjectCsl.create`. A failed creation is rolled back with the
      transaction, sequence included. */
  method CreateProject(env: Env, vals: Vals, envCompany: nat) returns (r: Result<nat>)
    requires env.Valid()
    modifies env`projects, env`sequences, env`nextId
    ensures env.Valid()
    ensures var company := CompanyOf(vals, envCompany);
      var (v, rows) := WithReference(vals, old(env.sequences), company, old(env.nextId));
      var id := old(env.nextId) + (|rows| - |old(env.sequences)|);
      var project := ProjectOf(v, company, env.workSets.Keys);
      && (project.Err? ==> r == Err(project.error) && unchanged(env))
      && (project.Ok? ==>
            && r == Ok(id) && id !in old(env.projects)
            && env.projects == old(env.projects)[id := project.value]
            && env.sequences == rows && env.nextId == id + 1)
  {
    var savedSequences, savedNext := env.sequences, env.nextId;
    var company := CompanyOf(vals, envCompany);
    var v := AssignReference(env, vals, company);
    var project := ProjectOf(v, company, env.workSets.Keys);
    if project.Err? {
      env.sequences, env.nextId := savedSequences, savedNext;
      return Err(project.error);
    }
    var id := InsertProject(env, project.value);
    r := Ok(id);
  }

  /** The host's insertion of a new project under the next id. */
  method InsertProject(env: Env, project: Project) returns (id: nat)
    requires env.Valid()
    modifies env`projects, env`nextId
    ensures env.Valid()
    ensures id == old(env.nextId) && id !in old(env.projects)
    ensures env.projects == old(env.projects)[id := project] && env.nextId == id + 1
  {
    id := env.nextId;
    var projects := env.projects[id := project];
    assert old(env.projects).Keys <= projects.Keys;
    env.projects, env.nextId := projects, id + 1;
  }

  // Status buttons.

  /** The loop of `action_confirm`, `action_done` and `action_draft`. */
  method SetState(env: Env, self: seq<nat>, state: State)
    requires env.Valid()
    requires forall i :: 0 <= i < |self| ==> self[i] in env.projects
    modifies env`projects
    ensures env.Valid()
    ensures env.projects.Keys == old(env.projects).Keys
    ensures forall p :: p in old(env.projects) ==>
      env.projects[p] == if p in self then old(env.projects)[p].(state := Some(state)) else old(env.projects)[p]
  {
    for i := 0 to |self|
      invariant env.projects.Keys == old(env.projects).Keys
      invariant forall p :: p in old(env.projects) ==>
        env.projects[p] == if p in self[..i] then old(env.projects)[p].(state := Some(state)) else old(env.projects)[p]
    {
      env.projects := env.projects[self[i] := env.projects[self[i]].(state := Some(state))];
      assert self[..i + 1] == self[..i] + [self[i]];
    }
    assert self[..|self|] == self;
  }

  /** `action_confirm`: every record of `self` is confirmed, whatever its state. */
  method ActionConfirm(env: Env, self: seq<nat>)
    requires env.Valid()
    requires forall i :: 0 <= i < |self| ==> self[i] in env.projects
    modifies env`projects
    ensures env.Valid()
    ensures env.projects.Keys == old(env.projects).Keys
    ensures forall p :: p in old(env.projects) ==>
      env.projects[p] == if p in self then old(env.projects)[p].(state := Some(Confirm)) else old(env.projects)[p]
  {
    SetState(env, self, Confirm);
  }

  /** `action_done`. */
  method ActionDone(env: Env, self: seq<nat>)
    requires env.Valid()
    requires forall i :: 0 <= i < |self| ==> self[i] in env.projects
    modifies env`projects
    ensures env.Valid()
    ensures env.projects.Keys == old(env.projects).Keys
    ensures forall p :: p in old(env.projects) ==>
      env.projects[p] == if p in self then old(env.projects)[p].(state := Some(Done)) else old(env.projects)[p]
  {
    SetState(env, self, Done);
  }

  /** `action_draft`. */
  method ActionDraft(env: Env, self: seq<nat>)
    requires env.Valid()
    requires forall i :: 0 <= i < |self| ==> self[i] in env.projects
    modifies env`projects
    ensures env.Valid()
    ensures env.projects.Keys == old(env.projects).Keys
    ensures forall p :: p in old(env.projects) ==>
      env.projects[p] == if p in self then old(env.projects)[p].(state := Some(Draft)) else old(env.projects)[p]
  {
    SetState(env, self, Draft);
  }

  // Roll-up counts and the lists behind the smart buttons.

  /** The targets of a project's lines, as a set. */
  lemma MappedContents(lines: seq<JunctionLine>, p: nat)
    ensures Elements(Mapped(LinesOfProject(lines, p))) == LinkedTargets(lines, p)
  {
    var own := LinesOfProject(lines, p);
    var ts := Targets(own);
    forall x ensures x in ts <==> exists l :: l in lines && l.project == p && l.target == x {
      if x in ts {
        var i :| 0 <= i < |ts| && ts[i] == x;
        assert own[i] in own;
      }
      if l :| l in lines && l.project == p && l.target == x {
        assert l in own;
        var i :| 0 <= i < |own| && own[i] == l;
        assert ts[i] == x;
      }
    }
  }

  /** `len(lines.quotation_id)` and `len(lines.purchase_order_id)`: the
      number of distinct orders the project's lines name, never more than
      the number of lines. */
  function LinkedOrderCount(lines: seq<JunctionLine>, p: nat): (r: nat)
    ensures r == |LinkedTargets(lines, p)|
    ensures r <= |LinesOfProject(lines, p)|
  {
    var own := LinesOfProject(lines, p);
    DistinctCardinality(Targets(own));
    ElementsCardinality(Mapped(own));
    MappedContents(lines, p);
    |Mapped(own)|
  }

  /** `len(rec.employee_requisition_line_ids)`: the number of requisition
      lines of the project, not of distinct requisitions. */
  function RequisitionCount(lines: seq<JunctionLine>, p: nat): (r: nat)
    ensures r == |LinesOfProject(lines, p)|
    ensures r >= |LinkedTargets(lines, p)|
  {
    var n := |LinesOfProject(lines, p)|;
    assert LinkedOrderCount(lines, p) <= n;
    n
  }

  /** Two lines of one requisition count twice. */
  lemma RequisitionCountCountsLines(p: nat, req: nat)
    ensures var lines := [JunctionLine(1, p, req), JunctionLine(2, p, req)];
      RequisitionCount(lines, p) == 2 && |LinkedTargets(lines, p)| == 1
  {
    var lines := [JunctionLine(1, p, req), JunctionLine(2, p, req)];
    FilterAll(lines, OfProject(p));
    assert LinkedTargets(lines, p) == {req};
  }

  /** The one-to-many `invoice_ids` (`move_type = 'out_invoice'`) or
      `project_bill_ids` (`move_type = 'in_invoice'`) of project `p`. */
  function ProjectMoves(moves: map<nat, Move>, p: nat, moveType: string): (r: set<nat>)
    ensures forall m :: m in r <==> m in moves && moves[m].project == Some(p) && moves[m].moveType == moveType
  {
    set m | m in moves && moves[m].project == Some(p) && moves[m].moveType == moveType
  }

  /** `invoice_count` and `project_bill_count`. */
  function MoveCount(moves: map<nat, Move>, p: nat, moveType: string): (r: nat)
    ensures r == |ProjectMoves(moves, p, moveType)|
    ensures r <= |moves|
  {
    assert ProjectMoves(moves, p, moveType) <= moves.Keys;
    SubsetCardinality(ProjectMoves(moves, p, moveType), moves.Keys);
    |ProjectMoves(moves, p, moveType)|
  }

  /** Creating a move of the project and type raises the count by one;
      creating any other move leaves it. */
  lemma MoveCountAfterCreate(moves: map<nat, Move>, p: nat, moveType: string, id: nat, m: Move)
    requires id !in moves
    ensures MoveCount(moves[id := m], p, moveType)
         == MoveCount(moves, p, moveType) + (if m.project == Some(p) && m.moveType == moveType then 1 else 0)
  {
    var before := ProjectMoves(moves, p, moveType);
    var after := ProjectMoves(moves[id := m], p, moveType);
    if m.project == Some(p) && m.moveType == moveType {
      assert after == before + {id};
    } else {
      assert after == before;
    }
  }

  lemma SubsetCardinality(a: set<nat>, b: set<nat>)
    requires a <= b
    ensures |a| <= |b|
  {
    assert b == a + (b - a);
  }

  /** Only invoices of the project count: a credit note or a journal entry
      linked to it is in neither list. */
  lemma MoveCountTypes(moves: map<nat, Move>, p: nat, m: nat)
    requires m in moves && moves[m].project == Some(p)
    requires moves[m].moveType != "out_invoice" && moves[m].moveType != "in_invoice"
    ensures m !in ProjectMoves(moves, p, "out_invoice") && m !in ProjectMoves(moves, p, "in_invoice")
  {
  }

  /** The `domain` of an `action_view_*` window: `[('id', 'in', ids)]`. */
  datatype Window = Window(resModel: string, domain: set<nat>, defaultMoveType: Option<string>)

  /** `action_view_quotations` / `action_view_purchase_orders`: the orders
      the project's lines name. */
  function ViewOrders(resModel: string, lines: seq<JunctionLine>, p: nat): (w: Window)
    ensures forall x :: x in w.domain <==> exists l :: l in lines && l.project == p && l.target == x
    ensures |w.domain| == LinkedOrderCount(lines, p)
  {
    MappedContents(lines, p);
    Window(resModel, Elements(Mapped(LinesOfProject(lines, p))), None)
  }

  /** `action_view_invoices` / `action_view_vendor_bills`: the moves counted
      by the matching count. */
  function ViewMoves(moves: map<nat, Move>, p: nat, moveType: string): (w: Window)
    ensures |w.domain| == MoveCount(moves, p, moveType)
    ensures forall m :: m in w.domain <==> m in moves && moves[m].project == Some(p) && moves[m].moveType == moveType
  {
    Window("account.move", ProjectMoves(moves, p, moveType), Some(moveType))
  }

  /** `action_view_employee_requisitions`: the distinct requisitions of the
      project's lines, which may be fewer than the count. */
  function ViewRequisitions(lines: seq<JunctionLine>, p: nat): (w: Window)
    ensures forall x :: x in w.domain <==> exists l :: l in lines && l.project == p && l.target == x
    ensures |w.domain| <= RequisitionCount(lines, p)
  {
    MappedContents(lines, p);
    Window("employee.purchase.requisition", Elements(Mapped(LinesOfProject(lines, p))), None)
  }

  // Scope lines.

  function OfScopeProject(p: nat): ProjectScopeLine -> bool
  {
    (l: ProjectScopeLine) => l.projectId == p
  }

  function NotOfScopeProject(p: nat): ProjectScopeLine -> bool
  {
    (l: ProjectScopeLine) => l.projectId != p
  }

  /** `project_scope_line_ids`, in `_order`. */
  function ScopeLinesOf(lines: seq<ProjectScopeLine>, p: nat): seq<ProjectScopeLine>
  {
    SortBy(Filter(lines, OfScopeProject(p)), ScopeLineKey)
  }

  /** What a form shows of a scope line or a template line. */
  datatype Entry = Entry(name: string, sequence: int)

  function ScopeEntries(ls: seq<ProjectScopeLine>): (r: seq<Entry>)
    ensures |r| == |ls| && forall i :: 0 <= i < |ls| ==> r[i] == Entry(ls[i].name, ls[i].sequence)
  {
    if ls == [] then [] else [Entry(ls[0].name, ls[0].sequence)] + ScopeEntries(ls[1..])
  }

  function TemplateEntries(ws: seq<ScopeWorkLine>): (r: seq<Entry>)
    ensures |r| == |ws| && forall i :: 0 <= i < |ws| ==> r[i] == Entry(ws[i].name, ws[i].sequence)
  {
    if ws == [] then [] else [Entry(ws[0].name, ws[0].sequence)] + TemplateEntries(ws[1..])
  }

  /** The `(0, 0, {...})` commands: one new scope line of project `p` per
      entry, under the fresh ids `start`, `start + 1`, .... */
  function NewScopeLines(es: seq<Entry>, p: nat, start: nat): (r: seq<ProjectScopeLine>)
    ensures |r| == |es|
    ensures forall i :: 0 <= i < |es| ==> r[i] == ProjectScopeLine(start + i, es[i].name, es[i].sequence, p)
  {
    if es == [] then [] else [ProjectScopeLine(start, es[0].name, es[0].sequence, p)] + NewScopeLines(es[1..], p, start + 1)
  }

  /** `[(5, 0, 0)]` followed by the new lines: the project's scope lines
      replaced, the other projects' lines kept. */
  function ReplaceScope(lines: seq<ProjectScopeLine>, p: nat, es: seq<Entry>, start: nat): seq<ProjectScopeLine>
  {
    Filter(lines, NotOfScopeProject(p)) + NewScopeLines(es, p, start)
  }

  /** The copies of a template read in `_order` are themselves in `_order`. */
  lemma CopiesSorted(ws: seq<ScopeWorkLine>, p: nat, start: nat)
    requires SortedBy(ws, WorkLineKey)
    ensures SortedBy(NewScopeLines(TemplateEntries(ws), p, start), ScopeLineKey)
  {
    var r := NewScopeLines(TemplateEntries(ws), p, start);
    forall i, j | 0 <= i < j < |r| ensures KeyLe(ScopeLineKey(r[i]), ScopeLineKey(r[j])) {
      assert KeyLe(WorkLineKey(ws[i]), WorkLineKey(ws[j]));
    }
  }

  /** The project's lines after the replacement are the new copies. */
  lemma ReplaceScopeOwnLines(lines: seq<ProjectScopeLine>, p: nat, es: seq<Entry>, start: nat)
    ensures Filter(ReplaceScope(lines, p, es, start), OfScopeProject(p)) == NewScopeLines(es, p, start)
  {
    var kept := Filter(lines, NotOfScopeProject(p));
    var copies := NewScopeLines(es, p, start);
    FilterAppend(kept, copies, OfScopeProject(p));
    FilterNone(kept, OfScopeProject(p));
    FilterAll(copies, OfScopeProject(p));
  }

  /** After the replacement, the project's scope lines, read in `_order`,
      are exactly the entries given, when those come in `_order`. */
  lemma ReplaceScopeResult(lines: seq<ProjectScopeLine>, p: nat, ws: seq<ScopeWorkLine>, start: nat)
    requires SortedBy(ws, WorkLineKey)
    ensures ScopeEntries(ScopeLinesOf(ReplaceScope(lines, p, TemplateEntries(ws), start), p)) == TemplateEntries(ws)
  {
    var copies := NewScopeLines(TemplateEntries(ws), p, start);
    ReplaceScopeOwnLines(lines, p, TemplateEntries(ws), start);
    CopiesSorted(ws, p, start);
    SortByOfSorted(copies, ScopeLineKey);
    assert ScopeEntries(copies) == TemplateEntries(ws);
  }

  /** The replacement leaves the other projects' scope lines alone. */
  lemma ReplaceScopeKeepsOthers(lines: seq<ProjectScopeLine>, p: nat, es: seq<Entry>, start: nat, q: nat)
    requires q != p
    ensures ScopeLinesOf(ReplaceScope(lines, p, es, start), q) == ScopeLinesOf(lines, q)
  {
    var kept := Filter(lines, NotOfScopeProject(p));
    var copies := NewScopeLines(es, p, start);
    FilterAppend(kept, copies, OfScopeProject(q));
    FilterNone(copies, OfScopeProject(q));
    ScopeFilterOfFilter(lines, p, q);
    assert Filter(kept + copies, OfScopeProject(q)) == Filter(lines, OfScopeProject(q));
  }

  lemma {:induction false} ScopeFilterOfFilter(lines: seq<ProjectScopeLine>, gone: nat, q: nat)
    requires q != gone
    ensures Filter(Filter(lines, NotOfScopeProject(gone)), OfScopeProject(q)) == Filter(lines, OfScopeProject(q))
  {
    if lines != [] {
      ScopeFilterOfFilter(lines[1..], gone, q);
      var rest := Filter(lines[1..], NotOfScopeProject(gone));
      if lines[0].projectId != gone {
        var kept := [lines[0]] + rest;
        assert Filter(lines, NotOfScopeProject(gone)) == kept;
        assert kept[1..] == rest;
      } else {
        assert Filter(lines, NotOfScopeProject(gone)) == rest;
      }
    }
  }

  /** Choosing the same template again gives the same scope lines, not the
      union of the two selections. */
  lemma ReplaceScopeIdempotent(lines: seq<ProjectScopeLine>, p: nat, ws: seq<ScopeWorkLine>, start1: nat, start2: nat)
    requires SortedBy(ws, WorkLineKey)
    ensures var once := ReplaceScope(lines, p, TemplateEntries(ws), start1);
      var twice := ReplaceScope(once, p, TemplateEntries(ws), start2);
      && ScopeEntries(ScopeLinesOf(twice, p)) == ScopeEntries(ScopeLinesOf(once, p))
      && |ScopeLinesOf(twice, p)| == |ws|
  {
    var once := ReplaceScope(lines, p, TemplateEntries(ws), start1);
    ReplaceScopeResult(lines, p, ws, start1);
    ReplaceScopeResult(once, p, ws, start2);
  }

  /** `_onchange_scope_work_set_id`: no template clears the project's scope
      lines; template `T` replaces them with copies of `T`'s lines. */
  method OnchangeScopeWorkSet(env: Env, p: nat)
    requires env.Valid() && p in env.projects
    modifies env`scopeLines, env`nextId
    ensures env.Valid()
    ensures var es := match env.projects[p].scopeSet
                      case None => []
                      case Some(t) => TemplateEntries(WorkLinesOf(env.workLines, t));
      && env.scopeLines == ReplaceScope(old(env.scopeLines), p, es, old(env.nextId))
      && env.nextId == old(env.nextId) + |es|
  {
    var start := env.nextId;
    ScopeFilterValid(env.scopeLines, p, env.projects.Keys, start);
    if env.projects[p].scopeSet.None? {
      env.scopeLines := Filter(env.scopeLines, NotOfScopeProject(p));
      assert env.scopeLines + NewScopeLines([], p, start) == env.scopeLines;
      return;
    }
    var template := WorkLinesOf(env.workLines, env.projects[p].scopeSet.value);
    var toCreate: seq<Entry> := [];
    for i := 0 to |template|
      invariant toCreate == TemplateEntries(template[..i])
    {
      toCreate := toCreate + [Entry(template[i].name, template[i].sequence)];
    }
    assert template[..|template|] == template;
    env.scopeLines := Filter(env.scopeLines, NotOfScopeProject(p));
    env.scopeLines := env.scopeLines + NewScopeLines(toCreate, p, start);
    env.nextId := env.nextId + |toCreate|;
  }

  /** Removing a project's scope lines keeps the table valid. */
  lemma ScopeFilterValid(lines: seq<ProjectScopeLine>, p: nat, projects: set<nat>, bound: nat)
    requires ScopeLinesValid(lines, projects, bound)
    ensures ScopeLinesValid(Filter(lines, NotOfScopeProject(p)), projects, bound)
  {
    var f := Filter(lines, NotOfScopeProject(p));
    forall i | 0 <= i < |f| ensures f[i].id < bound && f[i].projectId in projects {
      assert f[i] in lines;
    }
  }

  // Deleting a project.

  function NotOfProject(p: nat): JunctionLine -> bool
  {
    (l: JunctionLine) => l.project != p
  }

  /** `ondelete='cascade'` of a line kind: the project's lines go with it. */
  function CascadeLines(lines: seq<JunctionLine>, p: nat): (r: seq<JunctionLine>)
    ensures forall l :: l in r <==> l in lines && l.project != p
  {
    Filter(lines, NotOfProject(p))
  }

  /** `ondelete='set null'` of `project_csl_id` on sale and purchase orders. */
  function UnlinkOrders(orders: map<nat, Order>, p: nat): (r: map<nat, Order>)
    ensures r.Keys == orders.Keys
    ensures forall o :: o in orders ==> r[o].project != Some(p)
    ensures forall o :: o in orders && orders[o].project != Some(p) ==> r[o] == orders[o]
    ensures forall o :: o in orders ==> r[o] == orders[o].(project := r[o].project)
  {
    map o | o in orders :: if orders[o].project == Some(p) then orders[o].(project := None) else orders[o]
  }

  /** `ondelete='set null'` on moves. */
  function UnlinkMoves(moves: map<nat, Move>, p: nat): (r: map<nat, Move>)
    ensures r.Keys == moves.Keys
    ensures forall m :: m in moves ==> r[m].project != Some(p)
    ensures forall m :: m in moves && moves[m].project != Some(p) ==> r[m] == moves[m]
    ensures forall m :: m in moves ==> r[m] == moves[m].(project := r[m].project)
  {
    map m | m in moves :: if moves[m].project == Some(p) then moves[m].(project := None) else moves[m]
  }

  /** `ondelete='set null'` on requisitions. */
  function UnlinkRequisitions(reqs: map<nat, Requisition>, p: nat): (r: map<nat, Requisition>)
    ensures r.Keys == reqs.Keys
    ensures forall q :: q in reqs ==> r[q].project != Some(p)
    ensures forall q :: q in reqs && reqs[q].project != Some(p) ==> r[q] == reqs[q]
    ensures forall q :: q in reqs ==> r[q] == reqs[q].(project := r[q].project)
  {
    map q | q in reqs :: if reqs[q].project == Some(p) then reqs[q].(project := None) else reqs[q]
  }

  lemma CascadeValid(lines: seq<JunctionLine>, p: nat, projects: set<nat>, targets: set<nat>, bound: nat)
    requires LinesValid(lines, projects, targets, bound)
    ensures LinesValid(CascadeLines(lines, p), projects - {p}, targets, bound)
  {
    var r := CascadeLines(lines, p);
    forall i | 0 <= i < |r| ensures r[i].id < bound && r[i].project in projects - {p} && r[i].target in targets {
      assert r[i] in r;
    }
  }

  lemma ScopeCascadeValid(lines: seq<ProjectScopeLine>, p: nat, projects: set<nat>, bound: nat)
    requires ScopeLinesValid(lines, projects, bound)
    ensures ScopeLinesValid(Filter(lines, NotOfScopeProject(p)), projects - {p}, bound)
  {
    var f := Filter(lines, NotOfScopeProject(p));
    forall i | 0 <= i < |f| ensures f[i].id < bound && f[i].projectId in projects - {p} {
      assert f[i] in f;
    }
  }

  /** The `ondelete='set null'` half of deleting project `p`: orders, moves
      and requisitions keep their ids and lose the link to `p`. */
  method UnlinkProject(env: Env, p: nat)
    requires env.Valid()
    modifies env`saleOrders, env`purchaseOrders, env`moves, env`requisitions
    ensures env.Valid()
    ensures env.saleOrders == UnlinkOrders(old(env.saleOrders), p)
    ensures env.purchaseOrders == UnlinkOrders(old(env.purchaseOrders), p)
    ensures env.moves == UnlinkMoves(old(env.moves), p)
    ensures env.requisitions == UnlinkRequisitions(old(env.requisitions), p)
  {
    env.saleOrders, env.purchaseOrders := UnlinkOrders(env.saleOrders, p), UnlinkOrders(env.purchaseOrders, p);
    env.moves, env.requisitions := UnlinkMoves(env.moves, p), UnlinkRequisitions(env.requisitions, p);
  }

  /** The `ondelete='cascade'` half of deleting project `p`: its lines go
      with it. */
  method CascadeProject(env: Env, p: nat)
    requires env.Valid()
    modifies env`projects, env`quotationLines, env`purchaseLines, env`requisitionLines, env`scopeLines
    ensures env.Valid()
    ensures env.projects == old(env.projects) - {p}
    ensures env.quotationLines == CascadeLines(old(env.quotationLines), p)
    ensures env.purchaseLines == CascadeLines(old(env.purchaseLines), p)
    ensures env.requisitionLines == CascadeLines(old(env.requisitionLines), p)
    ensures env.scopeLines == Filter(old(env.scopeLines), NotOfScopeProject(p))
  {
    CascadeValid(env.quotationLines, p, env.projects.Keys, env.saleOrders.Keys, env.nextId);
    CascadeValid(env.purchaseLines, p, env.projects.Keys, env.purchaseOrders.Keys, env.nextId);
    CascadeValid(env.requisitionLines, p, env.projects.Keys, env.requisitions.Keys, env.nextId);
    ScopeCascadeValid(env.scopeLines, p, env.projects.Keys, env.nextId);
    assert (env.projects - {p}).Keys == env.projects.Keys - {p};
    env.quotationLines, env.purchaseLines := CascadeLines(env.quotationLines, p), CascadeLines(env.purchaseLines, p);
    env.requisitionLines := CascadeLines(env.requisitionLines, p);
    env.scopeLines := Filter(env.scopeLines, NotOfScopeProject(p));
    env.projects := env.projects - {p};
  }

  /** Deleting a project deletes its quotation, purchase, requisition and
      scope lines and clears the project on every order, move and
      requisition linked to it. */
  method DeleteProject(env: Env, p: nat)
    requires env.Valid() && p in env.projects
    modifies env`projects, env`quotationLines, env`purchaseLines, env`requisitionLines, env`scopeLines
    modifies env`saleOrders, env`purchaseOrders, env`moves, env`requisitions
    ensures env.Valid()
    ensures env.projects == old(env.projects) - {p}
    ensures env.quotationLines == CascadeLines(old(env.quotationLines), p)
    ensures env.purchaseLines == CascadeLines(old(env.purchaseLines), p)
    ensures env.requisitionLines == CascadeLines(old(env.requisitionLines), p)
    ensures env.scopeLines == Filter(old(env.scopeLines), NotOfScopeProject(p))
    ensures env.saleOrders == UnlinkOrders(old(env.saleOrders), p)
    ensures env.purchaseOrders == UnlinkOrders(old(env.purchaseOrders), p)
    ensures env.moves == UnlinkMoves(old(env.moves), p)
    ensures env.requisitions == UnlinkRequisitions(old(env.requisitions), p)
  {
    UnlinkProject(env, p);
    CascadeProject(env, p);
  }
}
