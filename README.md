# Project management add-on: a Dafny model

This project models the behaviour of an Odoo add-on. The add-on keeps
customer projects (`project.csl`) and links them to sale quotations,
purchase orders, invoices, vendor bills and purchase requisitions. The model
replaces the host's ORM with a record store, the class `Records.Env`. It
holds one map from ids to records per model and one id-ordered table per
kind of line, and it draws new ids from a single counter. The operations
that change records (creating and writing moves and lines, creating and
deleting projects, the status buttons, the scope onchange and
`action_create_invoice`) are methods on that store, proved against functions
of the old state. The computed fields (the counts), the actions the smart
buttons return and the invoice-value hooks change nothing and are functions
of the records. The role dropdown is a pair of methods on a class of its own,
`ResUsers.User`, that holds one user's groups. The properties the add-on
promises are lemmas about those functions.

Modules, each following one source file:

- `Base`, `Seqs`: optional values, the errors raised (the add-on's own
  `UserError`s and the host's checks of required fields, references and
  selections), field-value dictionaries (`vals`) with Python truthiness,
  filtering, and the de-duplicating `mapped` of a many-to-one field.
- `ScopeWork` (`models/scope_work.py`): the template sets, template lines and
  project scope lines; their required `name`, the default `sequence` of 10,
  the `_order = 'sequence, id'` ordering and the cascade on delete.
- `Records`: the record shapes the add-on reads and writes, and the store.
- `AccountMove` (`models/account_move.py`): when a move is created, it takes
  its project from the sale or purchase order named by its origin or
  reference. When a move is written, it is re-linked in the same way.
- `ProjectLines` (`models/project_lines.py`): creating or writing quotation
  and purchase lines puts the line's project on the order and on every
  invoice the order already has. Requisition lines do not.
- `ProjectSequence` and `ProjectCsl` (`models/project_csl.py`): project
  creation with its per-company reference counter, the status buttons, the
  roll-up counts and the smart-button lists, the scope-template onchange,
  and deleting a project.
- `ProjectInvoice` (`models/project_csl.py`): `action_create_invoice` and
  the sale order's invoice-value hook and smart button.
- `PurchaseOrder` (`models/purchase_order.py`): the vendor bill value hook
  and the smart button.
- `ResUsers` (`models/res_users.py`): the role dropdown, computed from group
  memberships, and its inverse.

Passed in as parameters:

- The host routines whose results cannot be seen become parameters: the
  invoice values `sale_order._prepare_invoice_values()` returns (`base`) and
  the current company.
- The external-id table behind `env.ref(...)` is a map from XML ids to
  group ids. A missing key stands for `raise_if_not_found=False` returning
  nothing.

Host assumptions stated in the model:

- `next_by_id()` renders the prefix and then the number, left-padded with
  zeros to the padding width (`ProjectSequence.Render`).
- `search([('name', '=', n)], limit=1)` on orders returns the order with the
  highest id among those named `n`.
- A search of `ir.sequence` returns the first matching row of the table.
- The values `sale_order._prepare_invoice_values()` returns for a quotation
  carry that quotation's name as `invoice_origin` and `'out_invoice'` as
  `move_type` (`ProjectInvoice.TagsOrigin`). The skip test of
  `action_create_invoice` looks for an earlier invoice by exactly these two
  fields, so the lemmas that a pressed button marks its quotations invoiced
  and that a second press creates nothing rest on it. Without it, a second
  press creates the invoices again.

Behaviour of the code worth knowing:

- `employee_requisition_count` counts requisition lines, not distinct
  requisitions (`ProjectCsl.RequisitionCountCountsLines`). The quotation and
  purchase order counts do count distinct orders.
- The status buttons set their state whatever the current state, so
  `action_confirm` also moves a `done` project back to `confirm`.
- Nothing makes references unique per company. A reference given in the
  values is kept as it is. Drawn references are pairwise distinct only
  while the company's counter steps forward (`ProjectSequence.Increasing`).
- Only a `company_id` absent from the values takes the current company as
  its default. One given as `False` makes the host refuse the record, although
  `create` falls back to the current company to pick the reference sequence
  (`ProjectCsl.FalseCompanyRefused`). A `state` given as `False` is stored as
  no state.

## Model

| member | source | states |
|---|---|---|
| Seqs.Distinct | models/project_csl.py:213 | `lines.quotation_id` lists each linked record once, and exactly the records the lines name |
| ScopeWork.KeyLeIsTotalOrder | models/scope_work.py:14 | the `sequence, id` ordering is reflexive, total, antisymmetric and transitive |
| ScopeWork.SortByFacts | models/scope_work.py:14 | reading lines in `_order` yields them sorted, with no line lost or duplicated (same multiset) |
| ScopeWork.SortByOfSorted | models/scope_work.py:23 | lines already in `_order` are read back unchanged |
| ScopeWork.NewWorkLine | models/scope_work.py:16-18 | a template line without a name is refused with a missing-`name` error; `sequence` defaults to 10, otherwise the given value is kept |
| ScopeWork.NewScopeLine | models/scope_work.py:25-27 | a project scope line without a name is refused; `sequence` defaults to 10 |
| ScopeWork.NewWorkSet | models/scope_work.py:8 | a template set without a name is refused |
| ScopeWork.WorkLinesOfFacts | models/scope_work.py:9-14 | a set's `work_line_ids` are exactly the template lines that name the set, sorted by `sequence, id` |
| ScopeWork.DeleteWorkSet | models/scope_work.py:18 | deleting a set removes it and exactly its lines; every other set keeps the same lines |
| AccountMove.FindByName | models/account_move.py:37-39 | the order found has the name searched for and no order with a higher id has it; none is found only when no order has the name |
| AccountMove.AutoLink | models/account_move.py:25-53 | values with a truthy `project_csl_id` pass through unchanged; otherwise at most `project_csl_id` is added, as a record link, and no other key changes |
| AccountMove.AutoLinkAll | models/account_move.py:25-53 | each values dictionary of the batch is auto-linked on its own, in order |
| AccountMove.NewMoves | models/account_move.py:55 | the host's create adds moves exactly under the consecutive fresh ids |
| AccountMove.NewMovesAt | models/account_move.py:55 | the `i`-th new move is made from the `i`-th values dictionary |
| AccountMove.CreatedOne | models/account_move.py:22-55 | creating one move adds it, auto-linked, under the next id |
| AccountMove.Relink | models/account_move.py:63-83 | re-linking changes at most the project of a move, and never the project of a move that has one |
| AccountMove.LinkVals | models/account_move.py:26-53 | the loop body of `create` picks exactly the project the decision rule `AutoLink` picks |
| AccountMove.AddMoves | models/account_move.py:55 | fresh moves are added under consecutive ids from the counter on, one per values dictionary, and every id stays below the advanced counter |
| AccountMove.HostCreateMoves | models/account_move.py:55 | the host's create adds one move per values dictionary under consecutive fresh ids and advances the counter by the batch size |
| AccountMove.CreateMoves | models/account_move.py:22-55 | `create` returns fresh consecutive ids, and the new moves are the auto-linked values; existing moves are untouched |
| AccountMove.RelinkMove | models/account_move.py:63-83 | the loop body of `write` on one move leaves it as `Relink` says and touches no other move |
| AccountMove.ApplyToMoves | models/account_move.py:59 | the host's write gives the written moves the values and leaves every other move as it was |
| AccountMove.RelinkMoves | models/account_move.py:63-83 | the re-linking loop re-links exactly the written moves and keeps every other move |
| AccountMove.WriteMoves | models/account_move.py:57-85 | `write` applies the values to the written moves, then re-links exactly those moves when `invoice_origin` or `ref` was written |
| AccountMove.CreateLinksCustomerMove | models/account_move.py:33-41 | a customer invoice or refund with an origin takes the project of the sale order found under it, if that order has one; otherwise it gets none |
| AccountMove.CreateLinksVendorMove | models/account_move.py:44-53 | a vendor bill or refund looks up `invoice_origin`, or else `ref`, among purchase orders |
| AccountMove.CreateLeavesOtherMoves | models/account_move.py:30-53 | any other move type is created without a project |
| AccountMove.CreateLinkIsSound | models/account_move.py:25-53 | whenever auto-linking sets a project, the move had none, its type is a customer or vendor type, and the project is that of the last-created order of the matching kind whose name is the move's key |
| AccountMove.CreateAgreesWithWrite | models/account_move.py:22-85 | the create path and the write path take the same linking decision for the same move |
| AccountMove.WriteWithoutReferenceDoesNotRelink | models/account_move.py:62 | a write naming neither `invoice_origin` nor `ref` is the host's plain write |
| AccountMove.WriteKeepsExistingProject | models/account_move.py:64-65 | a write never replaces a project the move already has |
| AccountMove.WriteCustomerIgnoresRef | models/account_move.py:68 | on write, a customer move without an origin is not linked, whatever its `ref` |
| AccountMove.WriteProjectOnly | models/account_move.py:57-65 | writing only `project_csl_id` sets the project of exactly the written moves and changes nothing else |
| ProjectLines.SetProjectIsMoveWrite | models/project_lines.py:48-50 | writing the project onto an order's invoices through `AccountMove.write` sets that project and nothing else |
| ProjectLines.PropagateAll | models/project_lines.py:41-50 | the propagation loop adds and removes no order and no move |
| ProjectLines.PropagateAllOnlyProjects | models/project_lines.py:41-50 | propagation changes only the `project_csl_id` of orders and of moves |
| ProjectLines.PropagateAllOrders | models/project_lines.py:41-44 | each order named by a line of the batch ends with the project of the last line naming it; an order no line names is unchanged |
| ProjectLines.PropagateKeepsInvoices | models/project_lines.py:44-50 | propagating a line does not change any order's invoices |
| ProjectLines.PropagateAllMoves | models/project_lines.py:46-50 | each existing invoice of an order named in the batch ends with the project of the last line whose order holds it; other moves are unchanged |
| ProjectLines.PropagateOneLine | models/project_lines.py:42-50 | after one line, its order and every existing invoice of that order carry the line's project |
| ProjectLines.LineOf | models/project_lines.py:8-14 | a line is created exactly when `project_id` and the order field are links to existing records |
| ProjectLines.NewLines | models/project_lines.py:40 | a batch of lines is created exactly when every values dictionary is valid; line `i` gets id `start + i` |
| ProjectLines.NewLinesValid | models/project_lines.py:8-14 | new lines have fresh ids and point at existing projects and orders |
| ProjectLines.CheckWrite | models/project_lines.py:55 | a write is accepted exactly when every written project or order field names an existing record |
| ProjectLines.WriteTable | models/project_lines.py:55 | the host's write keeps every line id and position and rewrites exactly the written lines |
| ProjectLines.WriteTableValid | models/project_lines.py:55 | an accepted write keeps every line pointing at existing records |
| ProjectLines.PropagateLines | models/project_lines.py:41-50 | the loop over lines leaves orders and moves as `PropagateAll` says |
| ProjectLines.CreateQuotationLines | models/project_lines.py:37-51 | an invalid batch changes nothing; a valid batch appends the lines under fresh ids and propagates their projects in order to the quotations and their invoices |
| ProjectLines.WriteQuotationLines | models/project_lines.py:53-67 | a refused write changes nothing; otherwise the lines are rewritten, re-propagated only when `quotation_id` or `project_id` is written, and orders and moves are unchanged otherwise |
| ProjectLines.CreatePurchaseLines | models/project_lines.py:109-123 | as for quotation lines, with purchase orders and their vendor bills |
| ProjectLines.WritePurchaseLines | models/project_lines.py:125-139 | as for quotation lines, keyed on `purchase_order_id` or `project_id` |
| ProjectLines.CreateRequisitionLines | models/project_lines.py:143-152 | creating requisition lines changes no requisition and no move |
| ProjectLines.WriteRequisitionLines | models/project_lines.py:143-152 | writing requisition lines changes no requisition |
| ProjectSequence.RenderRoundTrip | models/project_csl.py:160 | the number can be read back from a rendered reference |
| ProjectSequence.RenderInjective | models/project_csl.py:160 | distinct numbers render as distinct references |
| ProjectSequence.RenderNonEmpty | models/project_csl.py:160 | a rendered reference is never empty |
| ProjectSequence.DefaultRendering | models/project_csl.py:188-191 | a new sequence renders `PR/01`, then `PR/02`; number 100 renders as `PR/100` |
| ProjectSequence.FindSequence | models/project_csl.py:169-178 | the search returns the first row with the reference code and the company, and finds none only when no row matches |
| ProjectSequence.NewSequence | models/project_csl.py:185-193 | a created sequence has the reference code, the company, prefix `PR/`, padding 2, next number 1 and step 1 |
| ProjectSequence.Resolve | models/project_csl.py:166-194 | the company's sequence is in the table afterwards; at most one row is added, at the end |
| ProjectSequence.ResolveOrder | models/project_csl.py:166-194 | the company's own sequence is used first, else a copy of the company-less one, else a new one; a later search finds the row returned |
| ProjectSequence.NextById | models/project_csl.py:160 | `next_by_id` returns the rendered current number and advances only that row, by its step |
| ProjectSequence.DrawMany | models/project_csl.py:158-160 | `k` successive projects draw `k` references |
| ProjectSequence.ResolveIncreasing | models/project_csl.py:182-191 | resolution keeps every sequence of the code stepping forward |
| ProjectSequence.DrawManyValues | models/project_csl.py:159-160 | the `j`-th of successive references is the company row's number plus `j` steps, rendered |
| ProjectSequence.DrawManyAfterResolve | models/project_csl.py:159 | every draw uses the row the first resolution found |
| ProjectSequence.RenderedDistinct | models/project_csl.py:166-194 | references rendered from a counter that steps forward are pairwise distinct |
| ProjectSequence.DrawManyDistinct | models/project_csl.py:166-194 | successive projects of one company get pairwise distinct references while the counter steps forward |
| ProjectSequence.FirstReferences | models/project_csl.py:185-193 | in a database without sequences, the first two projects of a company get `PR/01` and `PR/02` |
| ProjectCsl.CompanyOf | models/project_csl.py:157 | the company is the one in the values, else the current company |
| ProjectCsl.StateOf | models/project_csl.py:35-39 | a state absent from the values is the default `draft`; a falsy state is stored as no state; a given key is accepted exactly when it is one of the three selection keys, and then is the state of that key; anything else is an invalid-selection error |
| ProjectCsl.ProjectOf | models/project_csl.py:10-44 | the required title, customer and company are checked in that order, where an absent company takes its default and a `False` one is missing; a created project keeps the given fields, gets the company and the stored state, and links only an existing template |
| ProjectCsl.FalseCompanyRefused | models/project_csl.py:31 | a `company_id` given as `False` refuses the record, even though the reference step falls back to the current company |
| ProjectCsl.CreateKeepsGivenReference | models/project_csl.py:158 | a reference given in the values is kept unchanged, and no sequence is touched |
| ProjectCsl.CreateDrawsReference | models/project_csl.py:158-160 | without a reference, the project gets the next value of its company's sequence, which is never `'/'`, and the sequence advances |
| ProjectCsl.SuccessiveProjectsDistinct | models/project_csl.py:155-194 | two projects created in turn in one company without references get different references |
| ProjectCsl.ResolveCompanySequence | models/project_csl.py:166-194 | the sequence lookup changes the table as `Resolve` says and uses one fresh id per row added |
| ProjectCsl.NextValue | models/project_csl.py:160 | drawing a value advances the chosen row as `NextById` says |
| ProjectCsl.AssignReference | models/project_csl.py:157-160 | the reference step leaves values and sequences as `WithReference` says |
| ProjectCsl.InsertProject | models/project_csl.py:162 | the host stores the new project under the next id, which was not in use, and advances the counter |
| ProjectCsl.CreateProject | models/project_csl.py:155-164 | a refused creation changes nothing; otherwise the project is added under a fresh id with its reference, and nothing else is added |
| ProjectCsl.SetState | models/project_csl.py:305-315 | every project of `self` gets the state, whatever its prior state; other projects and other fields are unchanged |
| ProjectCsl.ActionConfirm | models/project_csl.py:305-307 | every project of `self` is `confirm` afterwards, and nothing else changes |
| ProjectCsl.ActionDone | models/project_csl.py:309-311 | every project of `self` is `done` afterwards |
| ProjectCsl.ActionDraft | models/project_csl.py:313-315 | every project of `self` is `draft` afterwards |
| ProjectCsl.MappedContents | models/project_csl.py:112 | the mapped orders of a project's lines are exactly the orders its lines name |
| ProjectCsl.LinkedOrderCount | models/project_csl.py:109-122 | `quotation_count` and `purchase_order_count` are the number of distinct linked orders, never more than the number of lines |
| ProjectCsl.RequisitionCount | models/project_csl.py:129-132 | `employee_requisition_count` is the number of requisition lines, at least the number of distinct requisitions |
| ProjectCsl.RequisitionCountCountsLines | models/project_csl.py:132 | two lines of one requisition count as two |
| ProjectCsl.ProjectMoves | models/project_csl.py:52-75 | `invoice_ids` and `project_bill_ids` hold exactly the moves of the project with the filtered move type |
| ProjectCsl.MoveCount | models/project_csl.py:114-127 | `invoice_count` and `project_bill_count` are the number of the project's moves of the type, at most the number of moves |
| ProjectCsl.MoveCountAfterCreate | models/project_csl.py:114-127 | creating a move of the project and type raises the count by one, and creating any other move leaves it |
| ProjectCsl.MoveCountTypes | models/project_csl.py:52-75 | a refund or an entry linked to the project counts neither as an invoice nor as a bill |
| ProjectCsl.ViewOrders | models/project_csl.py:249-280 | the quotation and purchase order windows list exactly the linked orders, as many as the count says |
| ProjectCsl.ViewMoves | models/project_csl.py:260-291 | the invoice and bill windows list exactly the moves of the project and of the type, as many as the count says |
| ProjectCsl.ViewRequisitions | models/project_csl.py:293-302 | the requisition window lists exactly the linked requisitions, never more than the count |
| ProjectCsl.NewScopeLines | models/project_csl.py:141-146 | one new scope line of the project per template line, with its name and sequence |
| ProjectCsl.CopiesSorted | models/project_csl.py:142-146 | copies of template lines read in `_order` are themselves in `_order` |
| ProjectCsl.ReplaceScopeOwnLines | models/project_csl.py:149-150 | after the replacement, the project's scope lines are exactly the new copies |
| ProjectCsl.ReplaceScopeResult | models/project_csl.py:141-150 | after choosing template `T`, the project's scope lines, read in order, are `T`'s lines (name, sequence), never a union with the old ones |
| ProjectCsl.ReplaceScopeKeepsOthers | models/project_csl.py:149 | other projects' scope lines are untouched |
| ProjectCsl.ReplaceScopeIdempotent | models/project_csl.py:134-150 | choosing the same template again gives the same scope lines |
| ProjectCsl.OnchangeScopeWorkSet | models/project_csl.py:134-150 | no template empties the project's scope lines; template `T` replaces them by copies of `T`'s lines under fresh ids |
| ProjectCsl.CascadeLines | models/project_lines.py:8 | deleting a project removes exactly its lines |
| ProjectCsl.UnlinkOrders | models/project_csl.py:326 | deleting a project clears it on every linked order and changes nothing else |
| ProjectCsl.UnlinkMoves | models/account_move.py:11 | deleting a project clears it on every linked move and changes nothing else |
| ProjectCsl.UnlinkRequisitions | models/employee_requisition.py:11 | deleting a project clears it on every linked requisition |
| ProjectCsl.UnlinkProject | models/project_csl.py:326 | the set-null half of a deletion clears the project on orders, moves and requisitions and keeps the store consistent |
| ProjectCsl.CascadeProject | models/project_lines.py:75 | the cascade half of a deletion removes the project and its lines and keeps the store consistent |
| ProjectCsl.DeleteProject | models/project_lines.py:75 | deleting a project removes it, its quotation, purchase, requisition and scope lines, and clears it on orders, moves and requisitions |
| ProjectInvoice.PrepareInvoiceValues | models/project_csl.py:337-342 | the invoice values gain `project_csl_id` only when the order has a project; no other key changes |
| ProjectInvoice.PreparedInvoiceKeepsProject | models/project_csl.py:337-342 | an invoice created from those values carries the order's project |
| ProjectInvoice.ViewProject | models/project_csl.py:344-355 | the sale order's smart button opens the linked project in form view |
| ProjectInvoice.InvoiceOne | models/project_csl.py:215-242 | one iteration keeps the set of sale orders |
| ProjectInvoice.InvoiceAll | models/project_csl.py:215-242 | the loop keeps the set of sale orders |
| ProjectInvoice.InvoiceOneExtends | models/project_csl.py:232-242 | one iteration creates at most one invoice, under the next id, tagged with the project, and adds it to the quotation's invoices |
| ProjectInvoice.InvoiceAllExtends | models/project_csl.py:210-246 | the ids returned are exactly the moves the run created, in order, all tagged with the project; existing moves are untouched and orders only gain invoices |
| ProjectInvoice.InvoiceAllRecords | models/project_csl.py:237-242 | given host invoice values that name their quotation as origin (`TagsOrigin`), every invoice a successful run creates is in the invoices of a quotation of the run, the one named by its origin |
| ProjectInvoice.InvoiceOneMarks | models/project_csl.py:217-237 | given host invoice values that name their quotation as origin and are customer invoices (`TagsOrigin`), after one successful iteration its quotation counts as invoiced from the project |
| ProjectInvoice.InvoiceAllMarksInvoiced | models/project_csl.py:217-242 | given host invoice values that name their quotation as origin and are customer invoices (`TagsOrigin`), after a successful run every quotation counts as invoiced from the project |
| ProjectInvoice.InvoiceAllSkipsInvoiced | models/project_csl.py:217-219 | when every quotation is already invoiced from the project, the run creates and changes nothing |
| ProjectInvoice.ReinvoiceCreatesNothing | models/project_csl.py:215-242 | given host invoice values that name their quotation as origin and are customer invoices (`TagsOrigin`), pressing the button again right after a successful run creates no invoice |
| ProjectInvoice.InvoiceAllErrorNamesQuotation | models/project_csl.py:215-228 | a run fails only on a quotation not yet invoiced from the project that is not confirmed or has no products, and the error names it |
| ProjectInvoice.NotInvoicedBefore | models/project_csl.py:217-219 | a quotation not invoiced from the project after later invoices were created was not invoiced before them |
| ProjectInvoice.InvoiceAllSucceeds | models/project_csl.py:215-242 | when every quotation is already invoiced from the project, or is confirmed and has products, the run succeeds |
| ProjectInvoice.InvoicedQuotationSkipsChecks | models/project_csl.py:217-228 | an already invoiced quotation is skipped before the confirmation and product checks, so an unconfirmed but invoiced quotation does not stop the run |
| ProjectInvoice.CreateInvoice | models/project_csl.py:232-242 | creating one invoice adds it under the next id, records it on its quotation and appends it to the created ids |
| ProjectInvoice.InvoiceQuotation | models/project_csl.py:215-242 | the loop body on one quotation leaves the records as `InvoiceOne` says |
| ProjectInvoice.InvoiceLoop | models/project_csl.py:215-242 | the loop over the distinct quotations leaves the records as `InvoiceAll` says |
| ProjectInvoice.ActionCreateInvoice | models/project_csl.py:203-247 | no quotation lines is an error; an error leaves every record unchanged; success returns exactly the invoices `InvoiceAll` created |
| PurchaseOrder.PrepareInvoice | models/purchase_order.py:38-43 | the bill values gain `project_csl_id` only when the order has a project, and are returned as produced otherwise; no other key changes |
| PurchaseOrder.BillKeepsOrderProject | models/purchase_order.py:38-43 | a bill created from those values carries the order's project, whatever its origin or reference |
| PurchaseOrder.ActionViewProject | models/purchase_order.py:22-36 | the smart button opens `project.csl` in form view at the linked project, on its purchase order page |
| PurchaseOrder.ViewAfterPropagation | models/purchase_order.py:22-36 | after purchase lines are created, an order's smart button opens the project of the last line naming it |
| ResUsers.GroupOf | models/res_users.py:21-29 | a role has a group exactly when its XML id resolves |
| ResUsers.AllRoleGroups | models/res_users.py:49 | `all_role_groups` holds exactly the groups of the roles whose XML ids resolve |
| ResUsers.PutKeys | models/res_users.py:36 | after a dict assignment the keys are the old keys and the assigned one |
| ResUsers.PutNew | models/res_users.py:36 | assigning a key not yet in the dictionary appends the item behind the existing ones |
| ResUsers.DictOf | models/res_users.py:36 | `group_to_role` has exactly the existing role groups as keys |
| ResUsers.Lookup | models/res_users.py:39-44 | the compute loop yields `'none'` exactly when no key is a group of the user, and otherwise the role of a key the user holds |
| ResUsers.LookupIsFirstHeld | models/res_users.py:36-44 | with distinct groups, the loop finds the first role held in the order of the roles |
| ResUsers.ReadNoneIff | models/res_users.py:39-44 | the dropdown reads `'none'` exactly when the user is in none of the existing role groups |
| ResUsers.ReadIsFirstHeld | models/res_users.py:23-44 | with distinct groups, the dropdown reads the first of ceo, project manager, purchase manager, HR manager and account manager whose group holds the user |
| ResUsers.WriteNoneClears | models/res_users.py:52-54 | writing `'none'` or clearing the field removes every role group and no other group |
| ResUsers.WriteRoleExclusive | models/res_users.py:56-62 | writing a role whose group exists leaves exactly that role group, and other groups unchanged |
| ResUsers.WriteMissingRoleIsNoop | models/res_users.py:57-58 | writing a role whose group is missing changes nothing |
| ResUsers.WriteRoleIdempotent | models/res_users.py:47-62 | writing the same value twice is writing it once |
| ResUsers.WriteThenRead | models/res_users.py:33-62 | with distinct groups, writing a role whose group exists and reading gives that role back |
| ResUsers.WriteNoneThenRead | models/res_users.py:33-54 | writing `'none'` and reading gives `'none'` |
| ResUsers.User.ComputeRole | models/res_users.py:31-44 | the compute sets the value of the dictionary lookup, which with distinct groups is the first role held |
| ResUsers.User.InverseRole | models/res_users.py:46-62 | the inverse sets the groups as `WriteRole` says |

## Left out

- The ORM is not modelled: persistence, search domains beyond a name or code lookup, access rights, `mail.thread` tracking and chatter are reduced to maps and tables.
- Monetary related fields and currencies, the `Text` detail fields, dates, the coordinator contact and the employees carry no behaviour and are left out.
- The `domain` filters on the quotation and purchase order fields of the lines are view hints, not checks, and are left out.
- `ProjectCsl.write` only calls the host's write, so it is not modelled apart from the host's write.
- The returned actions are reduced to what identifies their records: the ids of their `domain`, or the record and page they open. Titles, view modes of the list windows and creation flags are left out. The invoice window of `action_create_invoice` is read from the host (`env.ref(...).read()`), so only its domain is modelled.
- The smart buttons of moves and requisitions (`action_view_project` in models/account_move.py and models/employee_requisition.py) are not modelled.
- `sale_order._prepare_invoice_values()` and the parent `_prepare_invoice()` are host routines. They enter as parameters, value maps about which the model assumes only what `ProjectInvoice.TagsOrigin` states, and only in the lemmas that require it.
- CreateProject: a failed creation restores the sequence table and the id counter, as a transaction rollback does. The host's database sequence behind the default `ir.sequence` implementation is not rolled back, so the host can skip a number that the model reuses.
- ProjectSequence.Render: rendering `prefix + zero-padded number` is an assumption about the host. Prefix and suffix interpolation (such as the year) and the `no_gap` implementation are not modelled.
- The `ir.sequence` record (`Records.Sequence`) has no `suffix` field, and its `number_next` and `number_increment` are `nat`, so the negative step the host allows cannot be represented. The distinctness lemmas require a positive step (`ProjectSequence.Increasing`).
- AccountMove.FindByName: the host orders sale and purchase orders by date, then by id, newest first. Dates are not modelled, so the newest order is taken to be the one with the highest id.
- ProjectSequence.FindSequence: the host orders `ir.sequence` by name; the model takes the first matching row of the table.
- ProjectCsl.OnchangeScopeWorkSet: the onchange acts on the form's unsaved record in the host. The model applies it to stored records, giving the new lines ids from the counter.
- ResUsers.User.ComputeRole and ResUsers.User.InverseRole: the loops over `self` are modelled for one user. Each user is handled on its own, so a recordset is that call repeated.
- ResUsers.WriteRoleExclusive: the host also adds the groups that a group implies (`implied_ids`). The model does not, so exclusivity holds only when role groups imply no other role group.
- Concurrency and row locking of `ir.sequence` are not modelled; every operation runs alone.
- Integers are unbounded: ids, sequence numbers and `sequence` values are not limited to the database's 32-bit columns.
