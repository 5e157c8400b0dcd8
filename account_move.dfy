/** The `account.move` extension: on create, a move with no project takes
    the project of the order named in its origin (or, for vendor bills, in its
    origin or else its reference); on write, a move still without a project
    is re-linked when its origin or reference is written. */
module AccountMove {
  import opened Base
  import opened Records

  predicate IsCustomerType(t: string)
  {
    t == "out_invoice" || t == "out_refund"
  }

  predicate IsVendorType(t: string)
  {
    t == "in_invoice" || t == "in_refund"
  }

  /** `orders.search([('name', '=', name)], limit=1)`. The host orders sale
      and purchase orders by date (or priority) and then by id, newest first;
      dates and priorities are not modelled, so the first match is the one
      with the highest id. `bound` lies above every id in use. */
  function FindByName(orders: map<nat, Order>, name: string, bound: nat): (r: Option<nat>)
    ensures r.Some? ==> r.value < bound && r.value in orders && orders[r.value].name == name
    ensures r.Some? ==> forall k :: r.value < k < bound && k in orders ==> orders[k].name != name
    ensures r.None? ==> forall k :: k < bound && k in orders ==> orders[k].name != name
    decreases bound
  {
    if bound == 0 then None
    else if bound - 1 in orders && orders[bound - 1].name == name then Some(bound - 1)
    else FindByName(orders, name, bound - 1)
  }

  /** `order.project_csl_id` of the order found under `name`, if any: `None`
      when no order has that name or the one found has no project. */
  function LinkedProject(orders: map<nat, Order>, name: string, bound: nat): Option<nat>
  {
    match FindByName(orders, name, bound)
    case None => None
    case Some(k) => orders[k].project
  }

  /** `vals.get(key)` on a character field. */
  function CharField(vals: Vals, key: string): Option<string>
  {
    TextOf(Get(vals, key))
  }

  /** The values after looking up the order named by `key` in `orders`. */
  function LinkFrom(vals: Vals, key: Option<string>, orders: map<nat, Order>, bound: nat): Vals
  {
    if Filled(key) then
      match LinkedProject(orders, key.value, bound)
      case Some(p) => vals["project_csl_id" := Link(p)]
      case None => vals
    else vals
  }

  /** The body of the loop of `AccountMove.create`: the values of one new
      move after auto-linking. */
  function AutoLink(vals: Vals, sales: map<nat, Order>, purchases: map<nat, Order>, bound: nat): (r: Vals)
    ensures Truthy(Get(vals, "project_csl_id")) ==> r == vals
    ensures r.Keys == vals.Keys || r.Keys == vals.Keys + {"project_csl_id"}
    ensures forall k :: k in vals && k != "project_csl_id" ==> r[k] == vals[k]
    ensures r != vals ==> "project_csl_id" in r && r["project_csl_id"].Link?
  {
    if Truthy(Get(vals, "project_csl_id")) then vals
    else
      var moveType := Get(vals, "move_type");
      if moveType.Text? && IsCustomerType(moveType.s) then
        LinkFrom(vals, CharField(vals, "invoice_origin"), sales, bound)
      else if moveType.Text? && IsVendorType(moveType.s) then
        LinkFrom(vals, OrElse(CharField(vals, "invoice_origin"), CharField(vals, "ref")), purchases, bound)
      else vals
  }

  /** The record the host creates from one values dictionary; a move with no
      `move_type` is a journal entry. */
  function MoveOf(vals: Vals): Move
  {
    var t := Get(vals, "move_type");
    Move(if t.Text? then t.s else "entry",
         CharField(vals, "invoice_origin"),
         CharField(vals, "ref"),
         LinkOf(Get(vals, "project_csl_id")))
  }

  /** The values of every new move after auto-linking. */
  function AutoLinkAll(valsList: seq<Vals>, sales: map<nat, Order>, purchases: map<nat, Order>, bound: nat): (r: seq<Vals>)
    ensures |r| == |valsList|
    ensures forall i :: 0 <= i < |r| ==> r[i] == AutoLink(valsList[i], sales, purchases, bound)
  {
    if valsList == [] then []
    else AutoLinkAll(valsList[..|valsList| - 1], sales, purchases, bound)
         + [AutoLink(valsList[|valsList| - 1], sales, purchases, bound)]
  }

  /** The moves the host creates from `valsList` under the fresh ids
      `start`, `start + 1`, .... */
  function NewMoves(valsList: seq<Vals>, start: nat): (r: map<nat, Move>)
    ensures forall k :: k in r <==> start <= k < start + |valsList|
  {
    if valsList == [] then map[]
    else NewMoves(valsList[..|valsList| - 1], start)[start + |valsList| - 1 := MoveOf(valsList[|valsList| - 1])]
  }

  /** The `i`-th new move is made from the `i`-th values dictionary. */
  lemma {:induction false} NewMovesAt(valsList: seq<Vals>, start: nat, i: nat)
    requires i < |valsList|
    ensures NewMoves(valsList, start)[start + i] == MoveOf(valsList[i])
  {
    var n := |valsList| - 1;
    if i < n {
      NewMovesAt(valsList[..n], start, i);
    }
  }

  /** The moves after `AccountMove.create(valsList)`, the new ones under the
      fresh ids `start`, `start + 1`, .... */
  function CreatedMoves(moves: map<nat, Move>, valsList: seq<Vals>, sales: map<nat, Order>,
                        purchases: map<nat, Order>, start: nat): map<nat, Move>
  {
    moves + NewMoves(AutoLinkAll(valsList, sales, purchases, start), start)
  }

  /** Creating a single move adds it under the fresh id, auto-linked. */
  lemma CreatedOne(moves: map<nat, Move>, vals: Vals, sales: map<nat, Order>, purchases: map<nat, Order>, start: nat)
    ensures CreatedMoves(moves, [vals], sales, purchases, start)
         == moves[start := MoveOf(AutoLink(vals, sales, purchases, start))]
  {
    var linked := AutoLinkAll([vals], sales, purchases, start);
    assert linked[..0] == [];
    assert NewMoves(linked, start) == map[start := MoveOf(linked[0])];
  }

  /** The host's write of `vals` on one move. */
  function ApplyMoveVals(m: Move, vals: Vals): Move
  {
    Move(if "move_type" in vals && vals["move_type"].Text? then vals["move_type"].s else m.moveType,
         if "invoice_origin" in vals then TextOf(vals["invoice_origin"]) else m.origin,
         if "ref" in vals then TextOf(vals["ref"]) else m.ref,
         if "project_csl_id" in vals then LinkOf(vals["project_csl_id"]) else m.project)
  }

  /** The body of the loop of `AccountMove.write` for one move. */
  function Relink(m: Move, sales: map<nat, Order>, purchases: map<nat, Order>, bound: nat): (r: Move)
    ensures r.moveType == m.moveType && r.origin == m.origin && r.ref == m.ref
    ensures m.project.Some? ==> r == m
  {
    if m.project.Some? then m
    else if IsCustomerType(m.moveType) && Filled(m.origin) then
      match LinkedProject(sales, m.origin.value, bound)
      case Some(p) => m.(project := Some(p))
      case None => m
    else if IsVendorType(m.moveType) then
      var key := OrElse(m.origin, m.ref);
      if Filled(key) then
        match LinkedProject(purchases, key.value, bound)
        case Some(p) => m.(project := Some(p))
        case None => m
      else m
    else m
  }

  predicate TouchesReference(vals: Vals)
  {
    "invoice_origin" in vals || "ref" in vals
  }

  /** One move after `write(vals)`. */
  function WrittenMove(m: Move, vals: Vals, sales: map<nat, Order>, purchases: map<nat, Order>, bound: nat): Move
  {
    var w := ApplyMoveVals(m, vals);
    if TouchesReference(vals) then Relink(w, sales, purchases, bound) else w
  }

  /** The moves after `write(vals)` on the moves `ids`. */
  function WriteEffect(moves: map<nat, Move>, ids: set<nat>, vals: Vals, sales: map<nat, Order>,
                       purchases: map<nat, Order>, bound: nat): map<nat, Move>
  {
    map m | m in moves :: if m in ids then WrittenMove(moves[m], vals, sales, purchases, bound) else moves[m]
  }

  /** The loop body of `AccountMove.create` on one values dictionary. */
  method LinkVals(env: Env, vals: Vals) returns (r: Vals)
    ensures r == AutoLink(vals, env.saleOrders, env.purchaseOrders, env.nextId)
  {
    r := vals;
    if Truthy(Get(vals, "project_csl_id")) {
      return;
    }
    var moveType := Get(vals, "move_type");
    if moveType.Text? && IsCustomerType(moveType.s) {
      var origin := CharField(vals, "invoice_origin");
      if Filled(origin) {
        var order := FindByName(env.saleOrders, origin.value, env.nextId);
        if order.Some? && env.saleOrders[order.value].project.Some? {
          r := vals["project_csl_id" := Link(env.saleOrders[order.value].project.value)];
        }
      }
    } else if moveType.Text? && IsVendorType(moveType.s) {
      var origin := OrElse(CharField(vals, "invoice_origin"), CharField(vals, "ref"));
      if Filled(origin) {
        var order := FindByName(env.purchaseOrders, origin.value, env.nextId);
        if order.Some? && env.purchaseOrders[order.value].project.Some? {
          r := vals["project_csl_id" := Link(env.purchaseOrders[order.value].project.value)];
        }
      }
    }
  }

  /** The host's `create` of moves on a table `moves` whose ids are all below
      `start`: one new record per values dictionary, under consecutive fresh
      ids from `start` on. */
  method AddMoves(moves: map<nat, Move>, start: nat, valsList: seq<Vals>) returns (r: map<nat, Move>, ids: seq<nat>)
    requires KeysBelow(moves, start)
    ensures KeysBelow(r, start + |valsList|)
    ensures |ids| == |valsList| && forall i :: 0 <= i < |ids| ==> ids[i] == start + i
    ensures r == moves + NewMoves(valsList, start)
  {
    assert valsList[..0] == [];
    assert moves + NewMoves([], start) == moves;
    r, ids := moves, [];
    for i := 0 to |valsList|
      invariant |ids| == i && forall j :: 0 <= j < i ==> ids[j] == start + j
      invariant r == moves + NewMoves(valsList[..i], start)
      invariant KeysBelow(r, start + i)
    {
      NewMovesStep(moves, valsList, i, start);
      r := r[start + i := MoveOf(valsList[i])];
      ids := ids + [start + i];
    }
    assert valsList[..|valsList|] == valsList;
  }

  method HostCreateMoves(env: Env, valsList: seq<Vals>) returns (ids: seq<nat>)
    requires env.Valid()
    modifies env`moves, env`nextId
    ensures env.Valid()
    ensures env.nextId == old(env.nextId) + |valsList|
    ensures |ids| == |valsList| && forall i :: 0 <= i < |ids| ==> ids[i] == old(env.nextId) + i
    ensures env.moves == old(env.moves) + NewMoves(valsList, old(env.nextId))
  {
    var moves;
    moves, ids := AddMoves(env.moves, env.nextId, valsList);
    env.moves, env.nextId := moves, env.nextId + |valsList|;
  }

  /** `AccountMove.create`: auto-link every values dictionary, then let the
      host create the moves. */
  method CreateMoves(env: Env, valsList: seq<Vals>) returns (ids: seq<nat>)
    requires env.Valid()
    modifies env`moves, env`nextId
    ensures env.Valid()
    ensures env.nextId == old(env.nextId) + |valsList|
    ensures |ids| == |valsList| && forall i :: 0 <= i < |ids| ==> ids[i] == old(env.nextId) + i
    ensures forall i :: 0 <= i < |ids| ==> ids[i] !in old(env.moves)
    ensures env.moves == CreatedMoves(old(env.moves), valsList, env.saleOrders, env.purchaseOrders, old(env.nextId))
  {
    var start := env.nextId;
    var linked: seq<Vals> := [];
    for i := 0 to |valsList|
      invariant env.nextId == start && env.moves == old(env.moves)
      invariant linked == AutoLinkAll(valsList[..i], env.saleOrders, env.purchaseOrders, start)
    {
      var vals := LinkVals(env, valsList[i]);
      assert valsList[..i + 1][..i] == valsList[..i];
      linked := linked + [vals];
    }
    assert valsList[..|valsList|] == valsList;
    ids := HostCreateMoves(env, linked);
  }

  lemma NewMovesStep(moves: map<nat, Move>, linked: seq<Vals>, i: nat, start: nat)
    requires i < |linked|
    ensures (moves + NewMoves(linked[..i], start))[start + i := MoveOf(linked[i])]
         == moves + NewMoves(linked[..i + 1], start)
  {
    assert linked[..i + 1][..i] == linked[..i];
  }

  /** The loop body of `AccountMove.write` on one move. */
  method RelinkMove(env: Env, id: nat)
    requires id in env.moves
    modifies env`moves
    ensures env.moves == old(env.moves)[id := Relink(old(env.moves)[id], env.saleOrders, env.purchaseOrders, env.nextId)]
  {
    var move := env.moves[id];
    if move.project.Some? {
      return;
    }
    if IsCustomerType(move.moveType) && Filled(move.origin) {
      var order := FindByName(env.saleOrders, move.origin.value, env.nextId);
      if order.Some? && env.saleOrders[order.value].project.Some? {
        env.moves := env.moves[id := move.(project := env.saleOrders[order.value].project)];
      }
    } else if IsVendorType(move.moveType) {
      var ref := OrElse(move.origin, move.ref);
      if Filled(ref) {
        var order := FindByName(env.purchaseOrders, ref.value, env.nextId);
        if order.Some? && env.purchaseOrders[order.value].project.Some? {
          env.moves := env.moves[id := move.(project := env.purchaseOrders[order.value].project)];
        }
      }
    }
  }

  /** The host's half of `write`: the moves `ids` take the values. */
  method ApplyToMoves(env: Env, ids: set<nat>, vals: Vals)
    requires env.Valid()
    modifies env`moves
    ensures env.Valid()
    ensures env.moves == map m | m in old(env.moves) :: if m in ids then ApplyMoveVals(old(env.moves)[m], vals) else old(env.moves)[m]
  {
    var moves := map m | m in env.moves :: if m in ids then ApplyMoveVals(env.moves[m], vals) else env.moves[m];
    assert moves.Keys == env.moves.Keys;
    env.moves := moves;
  }

  /** The re-linking loop of `write` over the moves `ids`. */
  method RelinkMoves(env: Env, ids: seq<nat>)
    requires env.Valid()
    requires forall i :: 0 <= i < |ids| ==> ids[i] in env.moves
    modifies env`moves
    ensures env.Valid()
    ensures env.moves == map m | m in old(env.moves) ::
      if m in ids then Relink(old(env.moves)[m], env.saleOrders, env.purchaseOrders, env.nextId) else old(env.moves)[m]
  {
    for i := 0 to |ids|
      invariant env.moves.Keys == old(env.moves).Keys
      invariant forall m :: m in old(env.moves) && m !in ids[..i] ==> env.moves[m] == old(env.moves)[m]
      invariant forall m :: m in ids[..i] ==>
        env.moves[m] == Relink(old(env.moves)[m], env.saleOrders, env.purchaseOrders, env.nextId)
    {
      RelinkMove(env, ids[i]);
      assert ids[..i + 1] == ids[..i] + [ids[i]];
    }
    assert ids[..|ids|] == ids;
  }

  /** `AccountMove.write`: the host writes `vals`; then, when the origin or
      the reference was written, every written move without a project is
      re-linked. */
  method WriteMoves(env: Env, ids: seq<nat>, vals: Vals)
    requires env.Valid()
    requires forall i :: 0 <= i < |ids| ==> ids[i] in env.moves
    modifies env`moves
    ensures env.Valid()
    ensures env.moves == WriteEffect(old(env.moves), set i | 0 <= i < |ids| :: ids[i], vals,
                                     env.saleOrders, env.purchaseOrders, env.nextId)
  {
    var written := set i | 0 <= i < |ids| :: ids[i];
    assert forall m :: m in written <==> m in ids;
    ApplyToMoves(env, written, vals);
    if TouchesReference(vals) {
      RelinkMoves(env, ids);
    }
  }

  // Properties of the decision rule of create.

  /** A customer invoice or refund with a filled origin takes the project of
      the sale order found under that name; otherwise it gets none. */
  lemma CreateLinksCustomerMove(vals: Vals, sales: map<nat, Order>, purchases: map<nat, Order>, bound: nat)
    requires !Truthy(Get(vals, "project_csl_id"))
    requires Get(vals, "move_type").Text? && IsCustomerType(Get(vals, "move_type").s)
    ensures var origin := CharField(vals, "invoice_origin");
      AutoLink(vals, sales, purchases, bound) ==
        if Filled(origin) && LinkedProject(sales, origin.value, bound).Some?
        then vals["project_csl_id" := Link(LinkedProject(sales, origin.value, bound).value)]
        else vals
  {
  }

  /** A vendor bill or refund looks up by origin, or else by reference, among
      the purchase orders. */
  lemma CreateLinksVendorMove(vals: Vals, sales: map<nat, Order>, purchases: map<nat, Order>, bound: nat)
    requires !Truthy(Get(vals, "project_csl_id"))
    requires Get(vals, "move_type").Text? && IsVendorType(Get(vals, "move_type").s)
    ensures var key := OrElse(CharField(vals, "invoice_origin"), CharField(vals, "ref"));
      AutoLink(vals, sales, purchases, bound) ==
        if Filled(key) && LinkedProject(purchases, key.value, bound).Some?
        then vals["project_csl_id" := Link(LinkedProject(purchases, key.value, bound).value)]
        else vals
  {
  }

  /** Any other move type is left without a project. */
  lemma CreateLeavesOtherMoves(vals: Vals, sales: map<nat, Order>, purchases: map<nat, Order>, bound: nat)
    requires !(Get(vals, "move_type").Text? && IsCustomerType(Get(vals, "move_type").s))
    requires !(Get(vals, "move_type").Text? && IsVendorType(Get(vals, "move_type").s))
    ensures AutoLink(vals, sales, purchases, bound) == vals
  {
  }

  /** A project set by auto-linking is the project of an existing order of
      the kind the move type calls for, whose name is the move's origin (or,
      for vendor moves, its origin or else its reference), and no order with
      a higher id has that name. */
  lemma {:induction false} CreateLinkIsSound(vals: Vals, sales: map<nat, Order>, purchases: map<nat, Order>, bound: nat)
    requires AutoLink(vals, sales, purchases, bound) != vals
    ensures var t := Get(vals, "move_type");
      var r := AutoLink(vals, sales, purchases, bound);
      var orders := if t.Text? && IsCustomerType(t.s) then sales else purchases;
      var key := if t.Text? && IsCustomerType(t.s) then CharField(vals, "invoice_origin")
                 else OrElse(CharField(vals, "invoice_origin"), CharField(vals, "ref"));
      && !Truthy(Get(vals, "project_csl_id"))
      && t.Text? && (IsCustomerType(t.s) || IsVendorType(t.s))
      && Filled(key)
      && exists k :: k in orders && k < bound && orders[k].name == key.value
                  && orders[k].project == Some(r["project_csl_id"].id)
                  && forall j :: k < j < bound && j in orders ==> orders[j].name != key.value
  {
    var t := Get(vals, "move_type");
    var orders := if t.Text? && IsCustomerType(t.s) then sales else purchases;
    var key := if t.Text? && IsCustomerType(t.s) then CharField(vals, "invoice_origin")
               else OrElse(CharField(vals, "invoice_origin"), CharField(vals, "ref"));
    var k := FindByName(orders, key.value, bound).value;
    assert k in orders && orders[k].name == key.value;
  }

  /** Creating a move auto-links it exactly as writing its origin or
      reference afterwards would: the two code paths take the same decision,
      provided the project value is a record id or `False`. */
  lemma CreateAgreesWithWrite(vals: Vals, sales: map<nat, Order>, purchases: map<nat, Order>, bound: nat)
    requires !Get(vals, "project_csl_id").Text?
    ensures MoveOf(AutoLink(vals, sales, purchases, bound)) == Relink(MoveOf(vals), sales, purchases, bound)
  {
  }

  // Properties of write.

  /** A write that names neither the origin nor the reference does not
      re-link: it is the host's plain write. */
  lemma WriteWithoutReferenceDoesNotRelink(m: Move, vals: Vals, sales: map<nat, Order>, purchases: map<nat, Order>, bound: nat)
    requires !TouchesReference(vals)
    ensures WrittenMove(m, vals, sales, purchases, bound) == ApplyMoveVals(m, vals)
  {
  }

  /** Re-linking never replaces a project the move already has. */
  lemma WriteKeepsExistingProject(m: Move, vals: Vals, sales: map<nat, Order>, purchases: map<nat, Order>, bound: nat)
    requires ApplyMoveVals(m, vals).project.Some?
    ensures WrittenMove(m, vals, sales, purchases, bound).project == ApplyMoveVals(m, vals).project
  {
  }

  /** In write, a customer move looks up by origin only: a reference alone
      links nothing. */
  lemma WriteCustomerIgnoresRef(m: Move, sales: map<nat, Order>, purchases: map<nat, Order>, bound: nat)
    requires m.project.None? && IsCustomerType(m.moveType) && !Filled(m.origin)
    ensures Relink(m, sales, purchases, bound) == m
  {
  }

  /** Writing only `project_csl_id` sets the project of every written move
      and changes nothing else. */
  lemma WriteProjectOnly(moves: map<nat, Move>, ids: set<nat>, p: nat, sales: map<nat, Order>, purchases: map<nat, Order>, bound: nat)
    ensures var r := WriteEffect(moves, ids, map["project_csl_id" := Link(p)], sales, purchases, bound);
      && r.Keys == moves.Keys
      && (forall m :: m in moves && m in ids ==> r[m] == moves[m].(project := Some(p)))
      && (forall m :: m in moves && m !in ids ==> r[m] == moves[m])
  {
  }
}
