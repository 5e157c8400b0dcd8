/** The record store that stands in for the host's ORM: one map per model
    whose records this add-on reads by id, one id-ordered table per model
    whose records it reads as a one-to-many, and the counter from which new
    ids are drawn. Only the fields this add-on reads or writes are kept. */
module Records {
  import opened Base
  import opened Seqs
  import opened ScopeWork

  /** `state` of a project. */
  datatype State = Draft | Confirm | Done

  /** A `project.csl` record. The coordinator, the dates, the employees and
      the free-text detail fields carry no behaviour and are left out. The
      state is `None` when it was written as `False`. */
  datatype Project = Project(
    name: string,
    reference: string,
    customer: nat,
    company: nat,
    state: Option<State>,
    scopeSet: Option<nat>)

  /** A `sale.order` or a `purchase.order` as this add-on sees it: its name,
      its state, how many order lines it has, the project it is linked to and
      the ids of its invoices (or vendor bills). */
  datatype Order = Order(
    name: string,
    state: string,
    lineCount: nat,
    project: Option<nat>,
    invoices: set<nat>)

  /** An `account.move` (invoice, refund or vendor bill). */
  datatype Move = Move(
    moveType: string,
    origin: Option<string>,
    ref: Option<string>,
    project: Option<nat>)

  /** An `employee.purchase.requisition`. */
  datatype Requisition = Requisition(name: string, project: Option<nat>)

  /** A `project.quotation.line`, `project.purchase.line` or
      `project.employee.requisition.line`: a project paired with one external
      record (a sale order, a purchase order or a requisition). The mirrored
      display fields are left out. */
  datatype JunctionLine = JunctionLine(id: nat, project: nat, target: nat)

  /** An `ir.sequence` row. */
  datatype Sequence = Sequence(
    id: nat,
    code: string,
    company: Option<nat>,
    prefix: string,
    padding: nat,
    next: nat,
    increment: nat)

  /** A window action that opens one record in form view: `res_model`,
      `view_mode`, `res_id`, `target`, and the `active_id` and
      `default_notebook_page` of its context. `None` stands for `False` or an
      absent key. */
  datatype FormAction = FormAction(
    resModel: string,
    viewMode: string,
    resId: Option<nat>,
    target: string,
    activeId: Option<nat>,
    notebookPage: Option<string>)

  /** Every line of `lines` has an id below `bound`, a project in `projects`
      and a target in `targets`: the required many-to-one fields point at
      existing records. */
  ghost predicate LinesValid(lines: seq<JunctionLine>, projects: set<nat>, targets: set<nat>, bound: nat)
  {
    forall i :: 0 <= i < |lines| ==>
      lines[i].id < bound && lines[i].project in projects && lines[i].target in targets
  }

  /** Every scope line has an id below `bound` and an existing project. */
  ghost predicate ScopeLinesValid(lines: seq<ProjectScopeLine>, projects: set<nat>, bound: nat)
  {
    forall i :: 0 <= i < |lines| ==> lines[i].id < bound && lines[i].projectId in projects
  }

  ghost predicate KeysBelow<V>(m: map<nat, V>, bound: nat)
  {
    forall k :: k in m ==> k < bound
  }

  /** The lines of one project, in the host's default order (by id). */
  function OfProject(p: nat): JunctionLine -> bool
  {
    (l: JunctionLine) => l.project == p
  }

  function LinesOfProject(lines: seq<JunctionLine>, p: nat): seq<JunctionLine>
  {
    Filter(lines, OfProject(p))
  }

  /** The target of each line, in line order. */
  function Targets(lines: seq<JunctionLine>): (r: seq<nat>)
    ensures |r| == |lines|
    ensures forall i :: 0 <= i < |lines| ==> r[i] == lines[i].target
  {
    if lines == [] then [] else [lines[0].target] + Targets(lines[1..])
  }

  /** `lines.ids`. */
  function LineIds(lines: seq<JunctionLine>): (r: seq<nat>)
    ensures |r| == |lines|
    ensures forall i :: 0 <= i < |lines| ==> r[i] == lines[i].id
  {
    if lines == [] then [] else [lines[0].id] + LineIds(lines[1..])
  }

  /** The external records that the lines of project `p` name. */
  function LinkedTargets(lines: seq<JunctionLine>, p: nat): (r: set<nat>)
    ensures forall x :: x in r <==> exists l :: l in lines && l.project == p && l.target == x
  {
    set l | l in lines && l.project == p :: l.target
  }

  /** `lines.target_id`: the external records of some lines, each once, in the
      order of their first line. */
  function Mapped(lines: seq<JunctionLine>): seq<nat>
  {
    Distinct(Targets(lines))
  }

  class Env {
    var projects: map<nat, Project>
    var saleOrders: map<nat, Order>
    var purchaseOrders: map<nat, Order>
    var moves: map<nat, Move>
    var requisitions: map<nat, Requisition>
    var quotationLines: seq<JunctionLine>
    var purchaseLines: seq<JunctionLine>
    var requisitionLines: seq<JunctionLine>
    var workSets: map<nat, ScopeWorkSet>
    var workLines: seq<ScopeWorkLine>
    var scopeLines: seq<ProjectScopeLine>
    var sequences: seq<Sequence>
    var nextId: nat

    /** Every id in use is below `nextId`, and every required many-to-one
        field of a line points at an existing record. */
    ghost predicate Valid()
      reads this
    {
      && KeysBelow(projects, nextId)
      && KeysBelow(saleOrders, nextId)
      && KeysBelow(purchaseOrders, nextId)
      && KeysBelow(moves, nextId)
      && KeysBelow(requisitions, nextId)
      && KeysBelow(workSets, nextId)
      && LinesValid(quotationLines, projects.Keys, saleOrders.Keys, nextId)
      && LinesValid(purchaseLines, projects.Keys, purchaseOrders.Keys, nextId)
      && LinesValid(requisitionLines, projects.Keys, requisitions.Keys, nextId)
      && ScopeLinesValid(scopeLines, projects.Keys, nextId)
      && (forall i :: 0 <= i < |workLines| ==> workLines[i].id < nextId && workLines[i].setId in workSets)
      && (forall i :: 0 <= i < |sequences| ==> sequences[i].id < nextId)
    }

    /** An empty database. Ids start at 1, as in the host. */
    constructor ()
      ensures Valid()
      ensures projects == map[] && saleOrders == map[] && purchaseOrders == map[] && moves == map[]
      ensures requisitions == map[] && workSets == map[]
      ensures quotationLines == [] && purchaseLines == [] && requisitionLines == []
      ensures workLines == [] && scopeLines == [] && sequences == []
      ensures nextId == 1
    {
      projects, saleOrders, purchaseOrders, moves := map[], map[], map[], map[];
      requisitions, workSets := map[], map[];
      quotationLines, purchaseLines, requisitionLines := [], [], [];
      workLines, scopeLines, sequences := [], [], [];
      nextId := 1;
    }
  }
}
