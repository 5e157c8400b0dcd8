/** The junction lines between a project and an external record
    (`project.quotation.line`, `project.purchase.line`,
    `project.employee.requisition.line`). Creating or rewriting a quotation
    or purchase line forces the line's project onto the external order and
    onto every existing invoice or bill of that order; requisition lines do
    nothing of the kind. */
module ProjectLines {
  import opened Base
  import opened Seqs
  import opened Records
  import AccountMove

  /** The records a line propagates to: the orders of its kind and the moves. */
  datatype Linked = Linked(orders: map<nat, Order>, moves: map<nat, Move>)

  /** `invoices.write({'project_csl_id': p})` on the moves `invoices`. */
  function SetProject(moves: map<nat, Move>, invoices: set<nat>, p: nat): map<nat, Move>
  {
    map m | m in moves :: if m in invoices then moves[m].(project := Some(p)) else moves[m]
  }

  /** The write of the project onto the invoices goes through
      `AccountMove.write`, whose re-linking does not fire for it: the effect
      is that of setting the project alone. */
  lemma SetProjectIsMoveWrite(moves: map<nat, Move>, invoices: set<nat>, p: nat,
                              sales: map<nat, Order>, purchases: map<nat, Order>, bound: nat)
    ensures SetProject(moves, invoices, p)
         == AccountMove.WriteEffect(moves, invoices, map["project_csl_id" := Link(p)], sales, purchases, bound)
  {
    AccountMove.WriteProjectOnly(moves, invoices, p, sales, purchases, bound);
  }

  /** The loop body of `create`/`write` for one line: link its order to its
      project, then every invoice of the order. */
  function Propagate(s: Linked, l: JunctionLine): Linked
  {
    if l.target in s.orders then
      var o := s.orders[l.target];
      Linked(s.orders[l.target := o.(project := Some(l.project))], SetProject(s.moves, o.invoices, l.project))
    else s
  }

  /** The loop of `create`/`write`: the lines in order. No record is added or
      removed. */
  function PropagateAll(s: Linked, ls: seq<JunctionLine>): (r: Linked)
    ensures r.orders.Keys == s.orders.Keys && r.moves.Keys == s.moves.Keys
    decreases |ls|
  {
    if ls == [] then s else PropagateAll(Propagate(s, ls[0]), ls[1..])
  }

  /** Line `i` is the last line of `ls` that names order `o`. */
  ghost predicate LastFor(ls: seq<JunctionLine>, i: int, o: nat)
  {
    0 <= i < |ls| && ls[i].target == o && forall j :: i < j < |ls| ==> ls[j].target != o
  }

  /** Move `m` is an invoice of the order named by line `l`. */
  ghost predicate Covers(orders: map<nat, Order>, l: JunctionLine, m: nat)
  {
    l.target in orders && m in orders[l.target].invoices
  }

  /** Line `i` is the last line of `ls` whose order holds invoice `m`. */
  ghost predicate LastCovering(orders: map<nat, Order>, ls: seq<JunctionLine>, i: int, m: nat)
  {
    0 <= i < |ls| && Covers(orders, ls[i], m) && forall j :: i < j < |ls| ==> !Covers(orders, ls[j], m)
  }

  /** Propagation changes only the project of orders and of moves. */
  lemma {:induction false} PropagateAllOnlyProjects(s: Linked, ls: seq<JunctionLine>)
    ensures var r := PropagateAll(s, ls);
      && (forall o :: o in s.orders ==> r.orders[o] == s.orders[o].(project := r.orders[o].project))
      && (forall m :: m in s.moves ==> r.moves[m] == s.moves[m].(project := r.moves[m].project))
    decreases |ls|
  {
    if ls != [] {
      var s1 := Propagate(s, ls[0]);
      PropagateAllOnlyProjects(s1, ls[1..]);
    }
  }

  /** Every order named by some line ends up with the project of the last
      line that names it; an order no line names is left alone. */
  lemma {:induction false} PropagateAllOrders(s: Linked, ls: seq<JunctionLine>, o: nat)
    requires o in s.orders
    ensures (forall j :: 0 <= j < |ls| ==> ls[j].target != o) ==> PropagateAll(s, ls).orders[o] == s.orders[o]
    ensures forall i :: LastFor(ls, i, o) ==>
      PropagateAll(s, ls).orders[o] == s.orders[o].(project := Some(ls[i].project))
    decreases |ls|
  {
    if ls != [] {
      var s1 := Propagate(s, ls[0]);
      PropagateAllOrders(s1, ls[1..], o);
      forall i | LastFor(ls, i, o)
        ensures PropagateAll(s, ls).orders[o] == s.orders[o].(project := Some(ls[i].project))
      {
        if i > 0 {
          assert LastFor(ls[1..], i - 1, o);
        } else {
          assert forall j :: 0 <= j < |ls[1..]| ==> ls[1..][j].target != o by {
            forall j | 0 <= j < |ls[1..]| ensures ls[1..][j].target != o {
              assert ls[1..][j] == ls[j + 1];
            }
          }
        }
      }
      if forall j :: 0 <= j < |ls| ==> ls[j].target != o {
        assert forall j :: 0 <= j < |ls[1..]| ==> ls[1..][j].target != o by {
          forall j | 0 <= j < |ls[1..]| ensures ls[1..][j].target != o {
            assert ls[1..][j] == ls[j + 1];
          }
        }
      }
    }
  }

  /** Propagating one line keeps every order's invoices. */
  lemma PropagateKeepsInvoices(s: Linked, l: JunctionLine)
    ensures var s1 := Propagate(s, l);
      s1.orders.Keys == s.orders.Keys && forall o :: o in s.orders ==> s1.orders[o].invoices == s.orders[o].invoices
  {
  }

  /** Every invoice of an order named by some line ends up with the project
      of the last such line; a move that is an invoice of none of them is
      left alone. */
  lemma {:induction false} PropagateAllMoves(s: Linked, ls: seq<JunctionLine>, m: nat)
    requires m in s.moves
    ensures (forall j :: 0 <= j < |ls| ==> !Covers(s.orders, ls[j], m)) ==> PropagateAll(s, ls).moves[m] == s.moves[m]
    ensures forall i :: LastCovering(s.orders, ls, i, m) ==>
      PropagateAll(s, ls).moves[m] == s.moves[m].(project := Some(ls[i].project))
    decreases |ls|
  {
    if ls != [] {
      var s1 := Propagate(s, ls[0]);
      PropagateKeepsInvoices(s, ls[0]);
      assert forall l: JunctionLine :: Covers(s1.orders, l, m) == Covers(s.orders, l, m);
      PropagateAllMoves(s1, ls[1..], m);
      forall i | LastCovering(s.orders, ls, i, m)
        ensures PropagateAll(s, ls).moves[m] == s.moves[m].(project := Some(ls[i].project))
      {
        if i > 0 {
          assert LastCovering(s1.orders, ls[1..], i - 1, m);
        } else {
          assert forall j :: 0 <= j < |ls[1..]| ==> !Covers(s1.orders, ls[1..][j], m) by {
            forall j | 0 <= j < |ls[1..]| ensures !Covers(s1.orders, ls[1..][j], m) {
              assert ls[1..][j] == ls[j + 1];
            }
          }
        }
      }
      if forall j :: 0 <= j < |ls| ==> !Covers(s.orders, ls[j], m) {
        assert forall j :: 0 <= j < |ls[1..]| ==> !Covers(s1.orders, ls[1..][j], m) by {
          forall j | 0 <= j < |ls[1..]| ensures !Covers(s1.orders, ls[1..][j], m) {
            assert ls[1..][j] == ls[j + 1];
          }
        }
      }
    }
  }

  /** A single line links its order and every existing invoice of that order
      to the line's project. */
  lemma PropagateOneLine(s: Linked, l: JunctionLine)
    requires l.target in s.orders
    ensures var r := PropagateAll(s, [l]);
      && r.orders[l.target].project == Some(l.project)
      && forall m :: m in s.moves && m in s.orders[l.target].invoices ==> r.moves[m].project == Some(l.project)
  {
    assert [l][1..] == [];
  }

  /** `lines.mapped` of the loop over lines: the project and the external
      record of a new line, checked as the host checks required many-to-one
      fields. */
  function LineOf(vals: Vals, projects: set<nat>, targets: set<nat>, targetField: string, id: nat)
    : (r: Result<JunctionLine>)
    ensures r.Ok? <==> Get(vals, "project_id").Link? && Get(vals, "project_id").id in projects
                       && Get(vals, targetField).Link? && Get(vals, targetField).id in targets
    ensures r.Ok? ==> r.value == JunctionLine(id, Get(vals, "project_id").id, Get(vals, targetField).id)
  {
    var p := Get(vals, "project_id");
    var t := Get(vals, targetField);
    if !p.Link? then Err(MissingRequired("project_id"))
    else if p.id !in projects then Err(DanglingReference("project_id"))
    else if !t.Link? then Err(MissingRequired(targetField))
    else if t.id !in targets then Err(DanglingReference(targetField))
    else Ok(JunctionLine(id, p.id, t.id))
  }

  /** The host's `create` of lines under the fresh ids `start`, `start + 1`,
      ...; it fails as a whole on the first invalid values dictionary. */
  function NewLines(valsList: seq<Vals>, projects: set<nat>, targets: set<nat>, targetField: string, start: nat)
    : (r: Result<seq<JunctionLine>>)
    ensures r.Ok? <==> forall i :: 0 <= i < |valsList| ==> LineOf(valsList[i], projects, targets, targetField, start + i).Ok?
    ensures r.Ok? ==> (|r.value| == |valsList|
      && forall i :: 0 <= i < |valsList| ==> Ok(r.value[i]) == LineOf(valsList[i], projects, targets, targetField, start + i))
    decreases |valsList|
  {
    if valsList == [] then Ok([])
    else
      match LineOf(valsList[0], projects, targets, targetField, start)
      case Err(e) => Err(e)
      case Ok(l) =>
        var rest := NewLines(valsList[1..], projects, targets, targetField, start + 1);
        assert forall i :: 1 <= i < |valsList| ==> valsList[1..][i - 1] == valsList[i];
        match rest
        case Err(e) => Err(e)
        case Ok(ls) => Ok([l] + ls)
  }

  /** New lines are valid: ids below the counter, existing project and target. */
  lemma NewLinesValid(valsList: seq<Vals>, projects: set<nat>, targets: set<nat>, targetField: string, start: nat)
    requires NewLines(valsList, projects, targets, targetField, start).Ok?
    ensures LinesValid(NewLines(valsList, projects, targets, targetField, start).value, projects, targets, start + |valsList|)
  {
    var ls := NewLines(valsList, projects, targets, targetField, start).value;
    forall i | 0 <= i < |ls| ensures ls[i].id < start + |valsList| && ls[i].project in projects && ls[i].target in targets {
      assert Ok(ls[i]) == LineOf(valsList[i], projects, targets, targetField, start + i);
    }
  }

  /** The host's check of a write on lines: a written project or external
      record must name an existing record. */
  function CheckWrite(vals: Vals, projects: set<nat>, targets: set<nat>, targetField: string): (r: Outcome)
    ensures r.Pass? <==> (("project_id" in vals ==> vals["project_id"].Link? && vals["project_id"].id in projects)
                      && (targetField in vals ==> vals[targetField].Link? && vals[targetField].id in targets))
  {
    if "project_id" in vals && !vals["project_id"].Link? then Fail(MissingRequired("project_id"))
    else if "project_id" in vals && vals["project_id"].id !in projects then Fail(DanglingReference("project_id"))
    else if targetField in vals && !vals[targetField].Link? then Fail(MissingRequired(targetField))
    else if targetField in vals && vals[targetField].id !in targets then Fail(DanglingReference(targetField))
    else Pass
  }

  /** One line after the host's write of `vals`. */
  function WriteLine(l: JunctionLine, vals: Vals, targetField: string): JunctionLine
  {
    JunctionLine(l.id,
                 if "project_id" in vals && vals["project_id"].Link? then vals["project_id"].id else l.project,
                 if targetField in vals && vals[targetField].Link? then vals[targetField].id else l.target)
  }

  /** The table after the host's write of `vals` on the lines `ids`. */
  function WriteTable(lines: seq<JunctionLine>, ids: set<nat>, vals: Vals, targetField: string): (r: seq<JunctionLine>)
    ensures |r| == |lines| && LineIds(r) == LineIds(lines)
    ensures forall i :: 0 <= i < |lines| ==> r[i] == if lines[i].id in ids then WriteLine(lines[i], vals, targetField) else lines[i]
  {
    if lines == [] then []
    else [if lines[0].id in ids then WriteLine(lines[0], vals, targetField) else lines[0]]
         + WriteTable(lines[1..], ids, vals, targetField)
  }

  /** A write that passed the check keeps the table valid. */
  lemma WriteTableValid(lines: seq<JunctionLine>, ids: set<nat>, vals: Vals, targetField: string,
                        projects: set<nat>, targets: set<nat>, bound: nat)
    requires LinesValid(lines, projects, targets, bound)
    requires CheckWrite(vals, projects, targets, targetField).Pass?
    ensures LinesValid(WriteTable(lines, ids, vals, targetField), projects, targets, bound)
  {
  }

  /** The first line of `lines` whose id is `id`. */
  function Find(lines: seq<JunctionLine>, id: nat): (r: JunctionLine)
    requires id in LineIds(lines)
    ensures r in lines && r.id == id
  {
    if lines[0].id == id then lines[0] else Find(lines[1..], id)
  }

  /** The recordset `self` of a write, as lines of the table. */
  function Select(lines: seq<JunctionLine>, self: seq<nat>): (r: seq<JunctionLine>)
    requires forall i :: 0 <= i < |self| ==> self[i] in LineIds(lines)
    ensures |r| == |self| && forall i :: 0 <= i < |self| ==> r[i] == Find(lines, self[i])
  {
    if self == [] then [] else [Find(lines, self[0])] + Select(lines, self[1..])
  }

  /** The ids of some lines, as a set. */
  function IdSet(self: seq<nat>): set<nat>
  {
    set i | 0 <= i < |self| :: self[i]
  }

  /** The propagation loop of `create` and `write`. */
  method PropagateLines(orders: map<nat, Order>, moves: map<nat, Move>, ls: seq<JunctionLine>)
    returns (orders': map<nat, Order>, moves': map<nat, Move>)
    ensures Linked(orders', moves') == PropagateAll(Linked(orders, moves), ls)
  {
    orders', moves' := orders, moves;
    for i := 0 to |ls|
      invariant PropagateAll(Linked(orders', moves'), ls[i..]) == PropagateAll(Linked(orders, moves), ls)
    {
      var line := ls[i];
      assert ls[i..][1..] == ls[i + 1..];
      if line.target in orders' {
        var order := orders'[line.target];
        orders' := orders'[line.target := order.(project := Some(line.project))];
        if order.invoices != {} {
          moves' := SetProject(moves', order.invoices, line.project);
        } else {
          assert SetProject(moves', order.invoices, line.project) == moves';
        }
      }
    }
  }

  /** `ProjectQuotationLine.create`. */
  method CreateQuotationLines(env: Env, valsList: seq<Vals>) returns (r: Result<seq<nat>>)
    requires env.Valid()
    modifies env`quotationLines, env`saleOrders, env`moves, env`nextId
    ensures env.Valid()
    ensures var created := NewLines(valsList, env.projects.Keys, old(env.saleOrders).Keys, "quotation_id", old(env.nextId));
      && (created.Err? ==> r == Err(created.error) && unchanged(env))
      && (created.Ok? ==>
            && r.Ok? && |r.value| == |valsList| && (forall i :: 0 <= i < |valsList| ==> r.value[i] == old(env.nextId) + i)
            && env.nextId == old(env.nextId) + |valsList|
            && env.quotationLines == old(env.quotationLines) + created.value
            && Linked(env.saleOrders, env.moves) == PropagateAll(Linked(old(env.saleOrders), old(env.moves)), created.value))
  {
    var start := env.nextId;
    var created := NewLines(valsList, env.projects.Keys, env.saleOrders.Keys, "quotation_id", start);
    if created.Err? {
      return Err(created.error);
    }
    NewLinesValid(valsList, env.projects.Keys, env.saleOrders.Keys, "quotation_id", start);
    env.quotationLines := env.quotationLines + created.value;
    env.nextId := env.nextId + |valsList|;
    env.saleOrders, env.moves := PropagateLines(env.saleOrders, env.moves, created.value);
    r := Ok(LineIds(created.value));
  }

  /** `ProjectQuotationLine.write`: the host writes `vals` on the lines
      `self`; when the quotation or the project is among the written keys,
      the lines of `self`, as written, are propagated in order. */
  method WriteQuotationLines(env: Env, self: seq<nat>, vals: Vals) returns (r: Outcome)
    requires env.Valid()
    requires forall i :: 0 <= i < |self| ==> self[i] in LineIds(env.quotationLines)
    modifies env`quotationLines, env`saleOrders, env`moves
    ensures env.Valid()
    ensures var check := CheckWrite(vals, env.projects.Keys, old(env.saleOrders).Keys, "quotation_id");
      && (check.Fail? ==> r == check && unchanged(env))
      && (check.Pass? ==>
            && r == Pass
            && env.quotationLines == WriteTable(old(env.quotationLines), IdSet(self), vals, "quotation_id")
            && ("quotation_id" in vals || "project_id" in vals ==>
                  Linked(env.saleOrders, env.moves)
                  == PropagateAll(Linked(old(env.saleOrders), old(env.moves)), Select(env.quotationLines, self)))
            && (!("quotation_id" in vals || "project_id" in vals) ==>
                  env.saleOrders == old(env.saleOrders) && env.moves == old(env.moves)))
  {
    r := CheckWrite(vals, env.projects.Keys, env.saleOrders.Keys, "quotation_id");
    if r.Fail? {
      return;
    }
    WriteTableValid(env.quotationLines, IdSet(self), vals, "quotation_id", env.projects.Keys, env.saleOrders.Keys, env.nextId);
    env.quotationLines := WriteTable(env.quotationLines, IdSet(self), vals, "quotation_id");
    if "quotation_id" in vals || "project_id" in vals {
      env.saleOrders, env.moves := PropagateLines(env.saleOrders, env.moves, Select(env.quotationLines, self));
    }
  }

  /** `ProjectPurchaseLine.create`: as for quotation lines, with the purchase
      order and its vendor bills. */
  method CreatePurchaseLines(env: Env, valsList: seq<Vals>) returns (r: Result<seq<nat>>)
    requires env.Valid()
    modifies env`purchaseLines, env`purchaseOrders, env`moves, env`nextId
    ensures env.Valid()
    ensures var created := NewLines(valsList, env.projects.Keys, old(env.purchaseOrders).Keys, "purchase_order_id", old(env.nextId));
      && (created.Err? ==> r == Err(created.error) && unchanged(env))
      && (created.Ok? ==>
            && r.Ok? && |r.value| == |valsList| && (forall i :: 0 <= i < |valsList| ==> r.value[i] == old(env.nextId) + i)
            && env.nextId == old(env.nextId) + |valsList|
            && env.purchaseLines == old(env.purchaseLines) + created.value
            && Linked(env.purchaseOrders, env.moves) == PropagateAll(Linked(old(env.purchaseOrders), old(env.moves)), created.value))
  {
    var start := env.nextId;
    var created := NewLines(valsList, env.projects.Keys, env.purchaseOrders.Keys, "purchase_order_id", start);
    if created.Err? {
      return Err(created.error);
    }
    NewLinesValid(valsList, env.projects.Keys, env.purchaseOrders.Keys, "purchase_order_id", start);
    env.purchaseLines := env.purchaseLines + created.value;
    env.nextId := env.nextId + |valsList|;
    env.purchaseOrders, env.moves := PropagateLines(env.purchaseOrders, env.moves, created.value);
    r := Ok(LineIds(created.value));
  }

  /** `ProjectPurchaseLine.write`. */
  method WritePurchaseLines(env: Env, self: seq<nat>, vals: Vals) returns (r: Outcome)
    requires env.Valid()
    requires forall i :: 0 <= i < |self| ==> self[i] in LineIds(env.purchaseLines)
    modifies env`purchaseLines, env`purchaseOrders, env`moves
    ensures env.Valid()
    ensures var check := CheckWrite(vals, env.projects.Keys, old(env.purchaseOrders).Keys, "purchase_order_id");
      && (check.Fail? ==> r == check && unchanged(env))
      && (check.Pass? ==>
            && r == Pass
            && env.purchaseLines == WriteTable(old(env.purchaseLines), IdSet(self), vals, "purchase_order_id")
            && ("purchase_order_id" in vals || "project_id" in vals ==>
                  Linked(env.purchaseOrders, env.moves)
                  == PropagateAll(Linked(old(env.purchaseOrders), old(env.moves)), Select(env.purchaseLines, self)))
            && (!("purchase_order_id" in vals || "project_id" in vals) ==>
                  env.purchaseOrders == old(env.purchaseOrders) && env.moves == old(env.moves)))
  {
    r := CheckWrite(vals, env.projects.Keys, env.purchaseOrders.Keys, "purchase_order_id");
    if r.Fail? {
      return;
    }
    WriteTableValid(env.purchaseLines, IdSet(self), vals, "purchase_order_id", env.projects.Keys, env.purchaseOrders.Keys, env.nextId);
    env.purchaseLines := WriteTable(env.purchaseLines, IdSet(self), vals, "purchase_order_id");
    if "purchase_order_id" in vals || "project_id" in vals {
      env.purchaseOrders, env.moves := PropagateLines(env.purchaseOrders, env.moves, Select(env.purchaseLines, self));
    }
  }

  /** `ProjectEmployeeRequisitionLine` has no `create` override: the host
      creates the lines and no requisition, order or move changes. */
  method CreateRequisitionLines(env: Env, valsList: seq<Vals>) returns (r: Result<seq<nat>>)
    requires env.Valid()
    modifies env`requisitionLines, env`nextId
    ensures env.Valid()
    ensures env.requisitions == old(env.requisitions) && env.moves == old(env.moves)
    ensures var created := NewLines(valsList, env.projects.Keys, env.requisitions.Keys, "requisition_id", old(env.nextId));
      && (created.Err? ==> r == Err(created.error) && unchanged(env))
      && (created.Ok? ==>
            && r.Ok? && |r.value| == |valsList| && (forall i :: 0 <= i < |valsList| ==> r.value[i] == old(env.nextId) + i)
            && env.nextId == old(env.nextId) + |valsList|
            && env.requisitionLines == old(env.requisitionLines) + created.value)
  {
    var start := env.nextId;
    var created := NewLines(valsList, env.projects.Keys, env.requisitions.Keys, "requisition_id", start);
    if created.Err? {
      return Err(created.error);
    }
    NewLinesValid(valsList, env.projects.Keys, env.requisitions.Keys, "requisition_id", start);
    env.requisitionLines := env.requisitionLines + created.value;
    env.nextId := env.nextId + |valsList|;
    r := Ok(LineIds(created.value));
  }

  /** Nor has it a `write` override. */
  method WriteRequisitionLines(env: Env, self: seq<nat>, vals: Vals) returns (r: Outcome)
    requires env.Valid()
    modifies env`requisitionLines
    ensures env.Valid()
    ensures env.requisitions == old(env.requisitions)
    ensures var check := CheckWrite(vals, env.projects.Keys, env.requisitions.Keys, "requisition_id");
      && (check.Fail? ==> r == check && unchanged(env))
      && (check.Pass? ==> r == Pass && env.requisitionLines == WriteTable(old(env.requisitionLines), IdSet(self), vals, "requisition_id"))
  {
    r := CheckWrite(vals, env.projects.Keys, env.requisitions.Keys, "requisition_id");
    if r.Fail? {
      return;
    }
    WriteTableValid(env.requisitionLines, IdSet(self), vals, "requisition_id", env.projects.Keys, env.requisitions.Keys, env.nextId);
    env.requisitionLines := WriteTable(env.requisitionLines, IdSet(self), vals, "requisition_id");
  }
}
