/** The purchase order extension: the vendor bill value hook and the smart
    button that opens the linked project. */
module PurchaseOrder {
  import opened Base
  import opened Records
  import AccountMove
  import ProjectLines

  /** `PurchaseOrder._prepare_invoice`: the host's bill values, plus
      `project_csl_id` when the order has a project; no other key changes. */
  function PrepareInvoice(base: Vals, o: Order): (r: Vals)
    ensures o.project.Some? ==> "project_csl_id" in r && r["project_csl_id"] == Link(o.project.value)
    ensures o.project.None? ==> r == base
    ensures r.Keys == base.Keys || r.Keys == base.Keys + {"project_csl_id"}
    ensures forall k :: k in base && k != "project_csl_id" ==> r[k] == base[k]
  {
    if o.project.Some? then base["project_csl_id" := Link(o.project.value)] else base
  }

  /** A bill created from the prepared values of an order with a project
      belongs to that project, whatever its origin or reference name:
      auto-linking leaves the values alone. */
  lemma BillKeepsOrderProject(base: Vals, o: Order, sales: map<nat, Order>, purchases: map<nat, Order>, bound: nat)
    requires o.project.Some?
    ensures AccountMove.AutoLink(PrepareInvoice(base, o), sales, purchases, bound) == PrepareInvoice(base, o)
    ensures AccountMove.MoveOf(AccountMove.AutoLink(PrepareInvoice(base, o), sales, purchases, bound)).project == o.project
  {
  }

  /** `PurchaseOrder.action_view_project`: the linked project in form view,
      on its purchase order page. */
  function ActionViewProject(o: Order): (a: FormAction)
    ensures a.resModel == "project.csl" && a.viewMode == "form" && a.target == "current"
    ensures a.resId == o.project && a.activeId == o.project
    ensures a.notebookPage == Some("Purchase Order")
  {
    FormAction("project.csl", "form", o.project, "current", o.project, Some("Purchase Order"))
  }

  /** After a batch of purchase lines is created or rewritten, the smart
      button of an order opens the project of the last line naming it. */
  lemma ViewAfterPropagation(s: ProjectLines.Linked, ls: seq<JunctionLine>, i: nat)
    requires i < |ls| && ls[i].target in s.orders
    requires ProjectLines.LastFor(ls, i, ls[i].target)
    ensures var r := ProjectLines.PropagateAll(s, ls);
      ActionViewProject(r.orders[ls[i].target]).resId == Some(ls[i].project)
  {
    ProjectLines.PropagateAllOrders(s, ls, ls[i].target);
  }
}
