/** `ProjectCsl.action_create_invoice` and the sale order's invoice value
    hook. The button invoices every distinct quotation of the project once:
    a quotation already invoiced from this project is skipped, the others
    must be confirmed and have products, and each gets a new customer
    invoice tagged with the project and added to its invoices. */
module ProjectInvoice {
  import opened Base
  import opened Seqs
  import opened Records
  import AccountMove

  /** `SaleOrder._prepare_invoice_values`: the host's values, plus
      `project_csl_id` when the order has a project; nothing else changes. */
  function PrepareInvoiceValues(base: Vals, o: Order): (r: Vals)
    ensures o.project.Some? ==> "project_csl_id" in r && r["project_csl_id"] == Link(o.project.value)
    ensures o.project.None? ==> r == base
    ensures r.Keys == base.Keys || r.Keys == base.Keys + {"project_csl_id"}
    ensures forall k :: k in base && k != "project_csl_id" ==> r[k] == base[k]
  {
    if o.project.Some? then base["project_csl_id" := Link(o.project.value)] else base
  }

  /** An invoice created from the values of an order with a project carries
      that project: auto-linking leaves it alone. */
  lemma PreparedInvoiceKeepsProject(base: Vals, o: Order, sales: map<nat, Order>, purchases: map<nat, Order>, bound: nat)
    requires o.project.Some?
    ensures AccountMove.MoveOf(AccountMove.AutoLink(PrepareInvoiceValues(base, o), sales, purchases, bound)).project == o.project
  {
  }

  /** `SaleOrder.action_view_project`: the linked project in form view. */
  function ViewProject(o: Order): (a: FormAction)
    ensures a.resModel == "project.csl" && a.viewMode == "form" && a.target == "current"
    ensures a.resId == o.project && a.activeId == o.project
    ensures a.notebookPage.None?
  {
    FormAction("project.csl", "form", o.project, "current", o.project, None)
  }

  /** `self.invoice_ids.filtered(lambda inv: inv.invoice_origin == name)` is
      not empty. */
  predicate AlreadyInvoiced(moves: map<nat, Move>, p: nat, name: string)
  {
    exists m :: m in moves && moves[m].project == Some(p) && moves[m].moveType == "out_invoice" && moves[m].origin == Some(name)
  }

  /** The state the loop works on: the sale orders, the moves, the id
      counter and `created_invoices`. */
  datatype Books = Books(orders: map<nat, Order>, moves: map<nat, Move>, nextId: nat, created: seq<nat>)

  /** The values of the invoice of quotation `so`, tagged with project `p`. */
  function InvoiceVals(base: nat -> Vals, so: nat, o: Order, p: nat): Vals
  {
    PrepareInvoiceValues(base(so), o)["project_csl_id" := Link(p)]
  }

  /** One iteration of the loop, on quotation `so`. */
  function InvoiceOne(b: Books, so: nat, p: nat, base: nat -> Vals, purchases: map<nat, Order>): (r: Result<Books>)
    requires so in b.orders
    ensures r.Ok? ==> r.value.orders.Keys == b.orders.Keys
  {
    var o := b.orders[so];
    if AlreadyInvoiced(b.moves, p, o.name) then Ok(b)
    else if o.state != "sale" then Err(QuotationNotConfirmed(o.name))
    else if o.lineCount == 0 then Err(QuotationWithoutProducts(o.name))
    else Ok(Invoiced(b, so, p, base, purchases))
  }

  /** The books after the invoice of quotation `so` was created under the
      next id and recorded on the quotation. */
  function Invoiced(b: Books, so: nat, p: nat, base: nat -> Vals, purchases: map<nat, Order>): Books
    requires so in b.orders
  {
    var o := b.orders[so];
    var vals := InvoiceVals(base, so, o, p);
    var id := b.nextId;
    Books(b.orders[so := o.(invoices := o.invoices + {id})],
          b.moves[id := AccountMove.MoveOf(AccountMove.AutoLink(vals, b.orders, purchases, id))],
          id + 1,
          b.created + [id])
  }

  /** The loop over the quotations, stopping at the first error. */
  function InvoiceAll(b: Books, sos: seq<nat>, p: nat, base: nat -> Vals, purchases: map<nat, Order>): (r: Result<Books>)
    requires forall i :: 0 <= i < |sos| ==> sos[i] in b.orders
    ensures r.Ok? ==> r.value.orders.Keys == b.orders.Keys
    decreases |sos|
  {
    if sos == [] then Ok(b)
    else
      match InvoiceOne(b, sos[0], p, base, purchases)
      case Err(e) => Err(e)
      case Ok(b1) => InvoiceAll(b1, sos[1..], p, base, purchases)
  }

  /** `r` is `b` after some invoices were created for project `p`: the new
      moves take the next ids in order, are tagged with `p` and are exactly
      the ones appended to `created`; existing moves are untouched; orders
      change only by gaining invoices. */
  ghost predicate Extends(b: Books, r: Books, p: nat)
  {
    && b.nextId <= r.nextId
    && |r.created| == |b.created| + (r.nextId - b.nextId)
    && r.created[..|b.created|] == b.created
    && (forall j :: |b.created| <= j < |r.created| ==> r.created[j] == b.nextId + (j - |b.created|))
    && (forall k :: k in r.moves <==> k in b.moves || b.nextId <= k < r.nextId)
    && (forall m :: m in b.moves ==> r.moves[m] == b.moves[m])
    && (forall k: nat :: b.nextId <= k < r.nextId ==> r.moves[k].project == Some(p))
    && r.orders.Keys == b.orders.Keys
    && (forall o :: o in b.orders ==>
          && r.orders[o] == b.orders[o].(invoices := r.orders[o].invoices)
          && b.orders[o].invoices <= r.orders[o].invoices)
  }

  lemma ExtendsTransitive(a: Books, b: Books, c: Books, p: nat)
    requires Extends(a, b, p) && Extends(b, c, p)
    ensures Extends(a, c, p)
  {
    assert c.created[..|b.created|][..|a.created|] == c.created[..|a.created|];
    forall j | |a.created| <= j < |c.created| ensures c.created[j] == a.nextId + (j - |a.created|) {
      if j < |b.created| {
        assert c.created[j] == c.created[..|b.created|][j] == b.created[j];
      }
    }
  }

  /** One iteration creates at most one invoice, tagged with the project,
      and records the one it creates on the quotation. */
  lemma InvoiceOneExtends(b: Books, so: nat, p: nat, base: nat -> Vals, purchases: map<nat, Order>)
    requires so in b.orders && KeysBelow(b.moves, b.nextId)
    requires InvoiceOne(b, so, p, base, purchases).Ok?
    ensures var r := InvoiceOne(b, so, p, base, purchases).value;
      Extends(b, r, p) && KeysBelow(r.moves, r.nextId)
    ensures var r := InvoiceOne(b, so, p, base, purchases).value;
      r.nextId <= b.nextId + 1 && (r.nextId == b.nextId + 1 ==> b.nextId in r.orders[so].invoices)
  {
    var r := InvoiceOne(b, so, p, base, purchases).value;
    if r != b {
      assert r.created[..|b.created|] == b.created;
    } else {
      assert b.created[..|b.created|] == b.created;
    }
  }

  /** The whole loop: every invoice it returns is new, tagged with the
      project, and every new move is one it returns. */
  lemma {:induction false} InvoiceAllExtends(b: Books, sos: seq<nat>, p: nat, base: nat -> Vals, purchases: map<nat, Order>)
    requires forall i :: 0 <= i < |sos| ==> sos[i] in b.orders
    requires KeysBelow(b.moves, b.nextId)
    requires InvoiceAll(b, sos, p, base, purchases).Ok?
    ensures var r := InvoiceAll(b, sos, p, base, purchases).value;
      Extends(b, r, p) && KeysBelow(r.moves, r.nextId)
    decreases |sos|
  {
    if sos == [] {
      assert b.created[..|b.created|] == b.created;
    } else {
      var b1 := InvoiceOne(b, sos[0], p, base, purchases).value;
      InvoiceOneExtends(b, sos[0], p, base, purchases);
      InvoiceAllExtends(b1, sos[1..], p, base, purchases);
      ExtendsTransitive(b, b1, InvoiceAll(b1, sos[1..], p, base, purchases).value, p);
    }
  }

  /** A quotation already invoiced from this project stays so. */
  lemma ExtendsKeepsInvoiced(b: Books, r: Books, p: nat, name: string)
    requires Extends(b, r, p) && AlreadyInvoiced(b.moves, p, name)
    ensures AlreadyInvoiced(r.moves, p, name)
  {
    var m :| m in b.moves && b.moves[m].project == Some(p) && b.moves[m].moveType == "out_invoice" && b.moves[m].origin == Some(name);
    assert m in r.moves;
  }

  /** The host's invoice values name their quotation as origin and are
      customer invoices. */
  ghost predicate TagsOrigin(base: nat -> Vals, orders: map<nat, Order>)
  {
    forall so :: so in orders ==>
      Get(base(so), "invoice_origin") == Text(orders[so].name) && Get(base(so), "move_type") == Text("out_invoice")
  }

  /** One iteration leaves its quotation counted as invoiced. */
  lemma InvoiceOneMarks(b: Books, so: nat, p: nat, base: nat -> Vals, purchases: map<nat, Order>)
    requires so in b.orders && TagsOrigin(base, b.orders)
    requires InvoiceOne(b, so, p, base, purchases).Ok?
    ensures AlreadyInvoiced(InvoiceOne(b, so, p, base, purchases).value.moves, p, b.orders[so].name)
    ensures var r := InvoiceOne(b, so, p, base, purchases).value;
      r.nextId != b.nextId ==> b.nextId in r.moves && r.moves[b.nextId].origin == Some(b.orders[so].name)
  {
    var o := b.orders[so];
    if !AlreadyInvoiced(b.moves, p, o.name) {
      var b1 := InvoiceOne(b, so, p, base, purchases).value;
      var vals := InvoiceVals(base, so, o, p);
      assert AccountMove.AutoLink(vals, b.orders, purchases, b.nextId) == vals;
      assert b1.moves[b.nextId].origin == Some(o.name);
    }
  }

  /** One iteration keeps every order's name, so the host's invoice values
      still name their quotations. */
  lemma InvoiceOneTags(b: Books, so: nat, p: nat, base: nat -> Vals, purchases: map<nat, Order>)
    requires so in b.orders && TagsOrigin(base, b.orders)
    requires InvoiceOne(b, so, p, base, purchases).Ok?
    ensures TagsOrigin(base, InvoiceOne(b, so, p, base, purchases).value.orders)
    ensures forall o :: o in b.orders ==> InvoiceOne(b, so, p, base, purchases).value.orders[o].name == b.orders[o].name
  {
    var b1 := InvoiceOne(b, so, p, base, purchases).value;
    forall o | o in b1.orders ensures b1.orders[o].name == b.orders[o].name {
    }
  }

  /** After the loop, every quotation it went through counts as invoiced
      from this project. */
  lemma {:induction false} InvoiceAllMarksInvoiced(b: Books, sos: seq<nat>, p: nat, base: nat -> Vals, purchases: map<nat, Order>)
    requires forall i :: 0 <= i < |sos| ==> sos[i] in b.orders
    requires KeysBelow(b.moves, b.nextId) && TagsOrigin(base, b.orders)
    requires InvoiceAll(b, sos, p, base, purchases).Ok?
    ensures forall i :: 0 <= i < |sos| ==>
      AlreadyInvoiced(InvoiceAll(b, sos, p, base, purchases).value.moves, p, b.orders[sos[i]].name)
    decreases |sos|
  {
    if sos != [] {
      var b1 := InvoiceOne(b, sos[0], p, base, purchases).value;
      var r := InvoiceAll(b, sos, p, base, purchases).value;
      var o := b.orders[sos[0]];
      assert KeysBelow(b1.moves, b1.nextId) by {
        InvoiceOneExtends(b, sos[0], p, base, purchases);
      }
      InvoiceOneTags(b, sos[0], p, base, purchases);
      InvoiceAllMarksInvoiced(b1, sos[1..], p, base, purchases);
      assert AlreadyInvoiced(r.moves, p, o.name) by {
        InvoiceOneMarks(b, sos[0], p, base, purchases);
        InvoiceAllExtends(b1, sos[1..], p, base, purchases);
        ExtendsKeepsInvoiced(b1, r, p, o.name);
      }
      forall i | 0 <= i < |sos| ensures AlreadyInvoiced(r.moves, p, b.orders[sos[i]].name) {
        if i > 0 {
          assert sos[1..][i - 1] == sos[i];
          assert AlreadyInvoiced(r.moves, p, b1.orders[sos[1..][i - 1]].name);
        }
      }
    }
  }

  /** When every quotation counts as invoiced from this project, the loop
      creates nothing and changes nothing. */
  lemma {:induction false} InvoiceAllSkipsInvoiced(b: Books, sos: seq<nat>, p: nat, base: nat -> Vals, purchases: map<nat, Order>)
    requires forall i :: 0 <= i < |sos| ==> sos[i] in b.orders
    requires forall i :: 0 <= i < |sos| ==> AlreadyInvoiced(b.moves, p, b.orders[sos[i]].name)
    ensures InvoiceAll(b, sos, p, base, purchases) == Ok(b)
    decreases |sos|
  {
    if sos != [] {
      assert forall i :: 1 <= i < |sos| ==> sos[1..][i - 1] == sos[i];
      InvoiceAllSkipsInvoiced(b, sos[1..], p, base, purchases);
    }
  }

  /** Invoice `id` is recorded on one of the quotations `sos` and names it
      as its origin. */
  ghost predicate RecordedOn(r: Books, sos: seq<nat>, orders: map<nat, Order>, id: nat)
  {
    exists i :: 0 <= i < |sos| && sos[i] in orders && sos[i] in r.orders && id in r.orders[sos[i]].invoices
      && id in r.moves && r.moves[id].origin == Some(orders[sos[i]].name)
  }

  /** Every invoice a successful run creates is added to the invoices of the
      quotation it was created for, the one whose name is its origin. */
  lemma {:induction false} InvoiceAllRecords(b: Books, sos: seq<nat>, p: nat, base: nat -> Vals, purchases: map<nat, Order>)
    requires forall i :: 0 <= i < |sos| ==> sos[i] in b.orders
    requires KeysBelow(b.moves, b.nextId) && TagsOrigin(base, b.orders)
    requires InvoiceAll(b, sos, p, base, purchases).Ok?
    ensures var r := InvoiceAll(b, sos, p, base, purchases).value;
      |b.created| <= |r.created| &&
      forall j :: |b.created| <= j < |r.created| ==> RecordedOn(r, sos, b.orders, r.created[j])
    decreases |sos|
  {
    if sos == [] {
      return;
    }
    var b1 := InvoiceOne(b, sos[0], p, base, purchases).value;
    var r := InvoiceAll(b1, sos[1..], p, base, purchases).value;
    assert KeysBelow(b1.moves, b1.nextId) && |b.created| <= |b1.created| <= |b.created| + 1 by {
      InvoiceOneExtends(b, sos[0], p, base, purchases);
    }
    assert InvoiceAll(b, sos, p, base, purchases) == Ok(r);
    InvoiceOneTags(b, sos[0], p, base, purchases);
    InvoiceAllRecords(b1, sos[1..], p, base, purchases);
    forall j | |b.created| <= j < |r.created| ensures RecordedOn(r, sos, b.orders, r.created[j]) {
      if j < |b1.created| {
        assert j == |b.created|;
        InvoiceAllExtends(b1, sos[1..], p, base, purchases);
        RecordedFirst(b, b1, r, sos, p, base, purchases);
      } else {
        RecordedLater(b, b1, r, sos, r.created[j]);
      }
    }
  }

  /** The invoice the first iteration creates is recorded on the first
      quotation. */
  lemma RecordedFirst(b: Books, b1: Books, r: Books, sos: seq<nat>, p: nat, base: nat -> Vals, purchases: map<nat, Order>)
    requires sos != [] && sos[0] in b.orders && TagsOrigin(base, b.orders)
    requires InvoiceOne(b, sos[0], p, base, purchases) == Ok(b1)
    requires Extends(b1, r, p) && |b.created| < |b1.created|
    ensures RecordedOn(r, sos, b.orders, r.created[|b.created|])
  {
    var id := b.nextId;
    assert b1 == Invoiced(b, sos[0], p, base, purchases);
    assert b1.created[|b.created|] == id && id in b1.orders[sos[0]].invoices;
    InvoiceOneMarks(b, sos[0], p, base, purchases);
    assert r.created[|b.created|] == r.created[..|b1.created|][|b.created|] == id;
    assert r.moves[id] == b1.moves[id];
  }

  /** An invoice recorded by the rest of the run is recorded by the run. */
  lemma RecordedLater(b: Books, b1: Books, r: Books, sos: seq<nat>, id: nat)
    requires sos != [] && forall i :: 0 <= i < |sos| ==> sos[i] in b.orders
    requires forall o :: o in b.orders ==> o in b1.orders && b1.orders[o].name == b.orders[o].name
    requires RecordedOn(r, sos[1..], b1.orders, id)
    ensures RecordedOn(r, sos, b.orders, id)
  {
    var i :| 0 <= i < |sos[1..]| && sos[1..][i] in b1.orders && sos[1..][i] in r.orders && id in r.orders[sos[1..][i]].invoices
      && id in r.moves && r.moves[id].origin == Some(b1.orders[sos[1..][i]].name);
    assert sos[1..][i] == sos[i + 1];
  }

  /** Pressing the button again right after a successful run creates no
      invoice, provided the host's invoice values name their quotation as
      origin. */
  lemma ReinvoiceCreatesNothing(b: Books, sos: seq<nat>, p: nat, base: nat -> Vals, purchases: map<nat, Order>)
    requires forall i :: 0 <= i < |sos| ==> sos[i] in b.orders
    requires KeysBelow(b.moves, b.nextId) && TagsOrigin(base, b.orders)
    requires InvoiceAll(b, sos, p, base, purchases).Ok?
    ensures var r := InvoiceAll(b, sos, p, base, purchases).value;
      var again := Books(r.orders, r.moves, r.nextId, []);
      InvoiceAll(again, sos, p, base, purchases) == Ok(again)
  {
    var r := InvoiceAll(b, sos, p, base, purchases).value;
    var again := Books(r.orders, r.moves, r.nextId, []);
    InvoiceAllExtends(b, sos, p, base, purchases);
    InvoiceAllMarksInvoiced(b, sos, p, base, purchases);
    forall i | 0 <= i < |sos| ensures AlreadyInvoiced(again.moves, p, again.orders[sos[i]].name) {
      assert again.orders[sos[i]].name == b.orders[sos[i]].name;
    }
    InvoiceAllSkipsInvoiced(again, sos, p, base, purchases);
  }

  /** `e` is the error that quotation `o` raises. */
  predicate FailsOn(o: Order, e: Error)
  {
    || (o.state != "sale" && e == QuotationNotConfirmed(o.name))
    || (o.state == "sale" && o.lineCount == 0 && e == QuotationWithoutProducts(o.name))
  }

  /** Quotation `o` is not yet invoiced from project `p` and raises `e`. */
  predicate RaisesOn(moves: map<nat, Move>, p: nat, o: Order, e: Error)
  {
    !AlreadyInvoiced(moves, p, o.name) && FailsOn(o, e)
  }

  /** A run fails only on a quotation, not yet invoiced from this project,
      that is not confirmed or has no products, and the error names it. */
  lemma {:induction false} InvoiceAllErrorNamesQuotation(b: Books, sos: seq<nat>, p: nat, base: nat -> Vals, purchases: map<nat, Order>)
    requires forall i :: 0 <= i < |sos| ==> sos[i] in b.orders
    requires KeysBelow(b.moves, b.nextId)
    requires InvoiceAll(b, sos, p, base, purchases).Err?
    ensures exists i :: 0 <= i < |sos| && RaisesOn(b.moves, p, b.orders[sos[i]], InvoiceAll(b, sos, p, base, purchases).error)
    decreases |sos|
  {
    var one := InvoiceOne(b, sos[0], p, base, purchases);
    if one.Err? {
      assert RaisesOn(b.moves, p, b.orders[sos[0]], one.error);
    } else {
      var b1 := one.value;
      InvoiceOneExtends(b, sos[0], p, base, purchases);
      InvoiceAllErrorNamesQuotation(b1, sos[1..], p, base, purchases);
      var e := InvoiceAll(b1, sos[1..], p, base, purchases).error;
      var i :| 0 <= i < |sos[1..]| && RaisesOn(b1.moves, p, b1.orders[sos[1..][i]], e);
      assert sos[1..][i] == sos[i + 1];
      var o := b.orders[sos[i + 1]];
      assert b1.orders[sos[i + 1]] == o.(invoices := b1.orders[sos[i + 1]].invoices);
      NotInvoicedBefore(b, b1, p, o.name);
      assert RaisesOn(b.moves, p, o, e);
    }
  }

  /** A quotation not invoiced after some invoices were created was not
      invoiced before. */
  lemma NotInvoicedBefore(b: Books, r: Books, p: nat, name: string)
    requires Extends(b, r, p) && !AlreadyInvoiced(r.moves, p, name)
    ensures !AlreadyInvoiced(b.moves, p, name)
  {
    forall m | m in b.moves
      ensures !(b.moves[m].project == Some(p) && b.moves[m].moveType == "out_invoice" && b.moves[m].origin == Some(name))
    {
      assert m in r.moves && r.moves[m] == b.moves[m];
    }
  }

  /** When every quotation is already invoiced from this project, or is
      confirmed and has products, the run succeeds. */
  lemma {:induction false} InvoiceAllSucceeds(b: Books, sos: seq<nat>, p: nat, base: nat -> Vals, purchases: map<nat, Order>)
    requires forall i :: 0 <= i < |sos| ==> sos[i] in b.orders
    requires forall i :: 0 <= i < |sos| ==> ReadyToInvoice(b.moves, p, b.orders[sos[i]])
    requires KeysBelow(b.moves, b.nextId)
    ensures InvoiceAll(b, sos, p, base, purchases).Ok?
    decreases |sos|
  {
    if sos != [] {
      InvoiceOneExtends(b, sos[0], p, base, purchases);
      var b1 := InvoiceOne(b, sos[0], p, base, purchases).value;
      forall i | 0 <= i < |sos[1..]| ensures ReadyToInvoice(b1.moves, p, b1.orders[sos[1..][i]]) {
        var o := b.orders[sos[i + 1]];
        assert sos[1..][i] == sos[i + 1];
        assert b1.orders[sos[i + 1]] == o.(invoices := b1.orders[sos[i + 1]].invoices);
        if AlreadyInvoiced(b.moves, p, o.name) {
          ExtendsKeepsInvoiced(b, b1, p, o.name);
        }
      }
      InvoiceAllSucceeds(b1, sos[1..], p, base, purchases);
    }
  }

  /** Quotation `o` is skipped because it is already invoiced from project
      `p`, or passes both checks. */
  predicate ReadyToInvoice(moves: map<nat, Move>, p: nat, o: Order)
  {
    AlreadyInvoiced(moves, p, o.name) || (o.state == "sale" && o.lineCount > 0)
  }

  /** An already invoiced quotation is skipped before it is checked: a run
      over one that is not confirmed and one that is ready succeeds. */
  lemma InvoicedQuotationSkipsChecks(b: Books, skipped: nat, ready: nat, p: nat, base: nat -> Vals, purchases: map<nat, Order>)
    requires skipped in b.orders && ready in b.orders && KeysBelow(b.moves, b.nextId)
    requires AlreadyInvoiced(b.moves, p, b.orders[skipped].name) && b.orders[skipped].state != "sale"
    requires b.orders[ready].state == "sale" && b.orders[ready].lineCount > 0
    ensures InvoiceAll(b, [skipped, ready], p, base, purchases).Ok?
  {
    InvoiceAllSucceeds(b, [skipped, ready], p, base, purchases);
  }

  /** Every quotation of the project's lines is an existing sale order. */
  lemma MappedTargetsExist(lines: seq<JunctionLine>, p: nat, projects: set<nat>, orders: set<nat>, bound: nat)
    requires LinesValid(lines, projects, orders, bound)
    ensures forall i :: 0 <= i < |Mapped(LinesOfProject(lines, p))| ==> Mapped(LinesOfProject(lines, p))[i] in orders
  {
    var own := LinesOfProject(lines, p);
    var ts := Targets(own);
    forall i | 0 <= i < |Mapped(own)| ensures Mapped(own)[i] in orders {
      var x := Mapped(own)[i];
      assert x in ts;
      var j :| 0 <= j < |ts| && ts[j] == x;
      assert own[j] in lines;
    }
  }

  /** One iteration of the loop of `action_create_invoice`, on quotation
      `so`; `created` is the list of invoices created so far. */
  method InvoiceQuotation(env: Env, p: nat, base: nat -> Vals, so: nat, created: seq<nat>) returns (r: Result<seq<nat>>)
    requires env.Valid() && so in env.saleOrders
    modifies env`saleOrders, env`moves, env`nextId
    ensures env.Valid()
    ensures var one := InvoiceOne(Books(old(env.saleOrders), old(env.moves), old(env.nextId), created), so, p, base, env.purchaseOrders);
      && (one.Err? ==> r == Err(one.error))
      && (one.Ok? ==> r == Ok(one.value.created) && env.saleOrders == one.value.orders
                      && env.moves == one.value.moves && env.nextId == one.value.nextId)
  {
    var order := env.saleOrders[so];
    if AlreadyInvoiced(env.moves, p, order.name) {
      return Ok(created);
    }
    if order.state != "sale" {
      return Err(QuotationNotConfirmed(order.name));
    }
    if order.lineCount == 0 {
      return Err(QuotationWithoutProducts(order.name));
    }
    r := CreateInvoice(env, p, base, so, created);
  }

  /** The part of the loop body that creates the invoice of quotation `so`
      and records it on the quotation. */
  method CreateInvoice(env: Env, p: nat, base: nat -> Vals, so: nat, created: seq<nat>) returns (r: Result<seq<nat>>)
    requires env.Valid() && so in env.saleOrders
    modifies env`saleOrders, env`moves, env`nextId
    ensures env.Valid()
    ensures r.Ok? && Books(env.saleOrders, env.moves, env.nextId, r.value)
         == Invoiced(Books(old(env.saleOrders), old(env.moves), old(env.nextId), created), so, p, base, env.purchaseOrders)
  {
    var order := env.saleOrders[so];
    var vals := PrepareInvoiceValues(base(so), order);
    vals := vals["project_csl_id" := Link(p)];
    AccountMove.CreatedOne(env.moves, vals, env.saleOrders, env.purchaseOrders, env.nextId);
    var ids := AccountMove.CreateMoves(env, [vals]);
    var orders := env.saleOrders[so := order.(invoices := order.invoices + {ids[0]})];
    assert orders.Keys == env.saleOrders.Keys;
    env.saleOrders := orders;
    r := Ok(created + [ids[0]]);
  }

  /** The loop of `action_create_invoice` over `quotations`. On an error the
      records are left as they were when it was raised. */
  method InvoiceLoop(env: Env, p: nat, base: nat -> Vals, quotations: seq<nat>) returns (r: Result<seq<nat>>)
    requires env.Valid()
    requires forall i :: 0 <= i < |quotations| ==> quotations[i] in env.saleOrders
    modifies env`saleOrders, env`moves, env`nextId
    ensures env.Valid()
    ensures var res := InvoiceAll(Books(old(env.saleOrders), old(env.moves), old(env.nextId), []), quotations, p, base, env.purchaseOrders);
      && (res.Err? ==> r == Err(res.error))
      && (res.Ok? ==> r == Ok(res.value.created) && env.saleOrders == res.value.orders
                      && env.moves == res.value.moves && env.nextId == res.value.nextId)
  {
    ghost var start := Books(env.saleOrders, env.moves, env.nextId, []);
    var created: seq<nat> := [];
    for i := 0 to |quotations|
      invariant env.Valid()
      invariant env.saleOrders.Keys == start.orders.Keys
      invariant InvoiceAll(start, quotations, p, base, env.purchaseOrders)
             == InvoiceAll(Books(env.saleOrders, env.moves, env.nextId, created), quotations[i..], p, base, env.purchaseOrders)
    {
      assert quotations[i..][1..] == quotations[i + 1..];
      var step := InvoiceQuotation(env, p, base, quotations[i], created);
      if step.Err? {
        return Err(step.error);
      }
      created := step.value;
    }
    r := Ok(created);
  }

  /** `action_create_invoice`. The returned ids are the domain of the window
      it opens. A `UserError` rolls the transaction back. */
  method ActionCreateInvoice(env: Env, p: nat, base: nat -> Vals) returns (r: Result<seq<nat>>)
    requires env.Valid() && p in env.projects
    modifies env`saleOrders, env`moves, env`nextId
    ensures env.Valid()
    ensures var lines := LinesOfProject(env.quotationLines, p);
      (lines == [] ==> r == Err(NoQuotationLines) && unchanged(env))
    ensures var lines := LinesOfProject(env.quotationLines, p);
      lines != [] ==>
        (forall i :: 0 <= i < |Mapped(lines)| ==> Mapped(lines)[i] in old(env.saleOrders)) &&
        var res := InvoiceAll(Books(old(env.saleOrders), old(env.moves), old(env.nextId), []), Mapped(lines), p, base, env.purchaseOrders);
        && (res.Err? ==> r == Err(res.error) && unchanged(env))
        && (res.Ok? ==> r == Ok(res.value.created) && env.saleOrders == res.value.orders
                        && env.moves == res.value.moves && env.nextId == res.value.nextId)
  {
    var lines := LinesOfProject(env.quotationLines, p);
    if lines == [] {
      return Err(NoQuotationLines);
    }
    MappedTargetsExist(env.quotationLines, p, env.projects.Keys, env.saleOrders.Keys, env.nextId);
    var quotations := Mapped(lines);
    var savedOrders, savedMoves, savedNext := env.saleOrders, env.moves, env.nextId;
    ghost var res := InvoiceAll(Books(env.saleOrders, env.moves, env.nextId, []), quotations, p, base, env.purchaseOrders);
    r := InvoiceLoop(env, p, base, quotations);
    if r.Err? {
      env.saleOrders, env.moves, env.nextId := savedOrders, savedMoves, savedNext;
      assert env.Valid();
    } else {
      assert res.Ok? && env.moves == res.value.moves;
    }
  }
}
