/** The expense-approval workflow of the v1 API: expense, category and approval
    endpoints, each a guarded update of a store holding three tables. */
module Expenses {
  import opened Schemas
  import opened Queries

  /** The failures an endpoint reports, with the detail text it reports them with. */
  datatype Error = NotFound(detail: string) | Forbidden(detail: string) | BadRequest(detail: string)

  datatype Result<+T> = Ok(value: T) | Err(error: Error)

  /** The caller has a manager: a missing manager id and the id 0 both count as none. */
  predicate HasManager(u: User) {
    u.managerId.Some? && u.managerId.value != 0
  }

  /** The list filter on status: a missing or empty filter string admits every status. */
  predicate Admits(filter: Option<string>, s: Status) {
    filter.None? || filter.value == "" || s.Name() == filter.value
  }

  /** Row filters of the endpoints' queries. */
  function OwnedBy(owner: int, filter: Option<string>): Expense -> bool {
    (e: Expense) => e.employeeId == owner && Admits(filter, e.status)
  }

  function ForExpense(expenseId: int): Approval -> bool {
    (a: Approval) => a.expenseId == expenseId
  }

  function PendingFor(approverId: int): Approval -> bool {
    (a: Approval) => a.approverId == approverId && a.status == Pending
  }

  function Active(): Category -> bool {
    (c: Category) => c.isActive
  }

  /** A pending approval belongs to a submitted expense; a decided approval to an
      expense with the same decision. */
  predicate InStep(a: ApprovalStatus, e: ExpenseStatus) {
    if a == Pending then e == Submitted else e == a
  }

  /** Every approved or rejected expense of `exps` is referenced by an approval of `apps`. */
  ghost predicate Recorded(exps: map<int, Expense>, apps: map<int, Approval>) {
    forall id :: id in exps && exps[id].status.Decided() ==>
      exists a :: a in apps && apps[a].expenseId == id
  }

  /** Recorded decisions survive a step that decides no expense and removes no approval. */
  lemma RecordedKept(exps: map<int, Expense>, apps: map<int, Approval>,
                     exps': map<int, Expense>, apps': map<int, Approval>)
    requires Recorded(exps, apps)
    requires forall id :: id in exps' && exps'[id].status.Decided() ==> id in exps && exps[id].status.Decided()
    requires forall a :: a in apps ==> a in apps' && apps'[a].expenseId == apps[a].expenseId
    ensures Recorded(exps', apps')
  {
    forall id | id in exps' && exps'[id].status.Decided()
      ensures exists a :: a in apps' && apps'[a].expenseId == id
    {
      var a :| a in apps && apps[a].expenseId == id;
      assert a in apps' && apps'[a].expenseId == id;
    }
  }

  /** Every approval of `apps` references an expense of `exps` whose status is in step with its own. */
  ghost predicate AllInStep(exps: map<int, Expense>, apps: map<int, Approval>) {
    forall id :: id in apps ==>
      apps[id].expenseId in exps && InStep(apps[id].status, exps[apps[id].expenseId].status)
  }

  /** No two approvals of `apps` reference the same expense. */
  ghost predicate OnePerExpense(apps: map<int, Approval>) {
    forall i, j :: i in apps && j in apps && apps[i].expenseId == apps[j].expenseId ==> i == j
  }

  /** Submitting a draft keeps the tables in step, and no approval references the draft. */
  lemma SubmitKeepsStep(exps: map<int, Expense>, apps: map<int, Approval>, id: int, e: Expense)
    requires AllInStep(exps, apps) && Recorded(exps, apps)
    requires id in exps && exps[id].status == Draft && e.status == Submitted
    ensures forall k :: k in apps ==> apps[k].expenseId != id
    ensures AllInStep(exps[id := e], apps) && Recorded(exps[id := e], apps)
  {
    RecordedKept(exps, apps, exps[id := e], apps);
  }

  /** A pending approval added for a submitted expense that has none keeps every
      invariant over the approvals table. */
  lemma AddPendingKeeps(exps: map<int, Expense>, apps: map<int, Approval>, a: Approval)
    requires AllInStep(exps, apps) && OnePerExpense(apps) && Recorded(exps, apps)
    requires a.id !in apps && a.status == Pending
    requires a.expenseId in exps && exps[a.expenseId].status == Submitted
    requires forall k :: k in apps ==> apps[k].expenseId != a.expenseId
    ensures AllInStep(exps, apps[a.id := a]) && OnePerExpense(apps[a.id := a])
    ensures Recorded(exps, apps[a.id := a])
  {
    RecordedKept(exps, apps, exps, apps[a.id := a]);
  }

  // ---------------------------------------------------------------------------
  // Partial update: the sent fields are written one at a time onto the expense.

  /** Writes one sent field onto an expense. */
  function SetAttr(e: Expense, f: FieldValue): Expense {
    match f
    case AmountValue(x) => e.(amount := x)
    case DescriptionValue(x) => e.(description := x)
    case ExpenseDateValue(x) => e.(expenseDate := x)
    case CategoryIdValue(x) => e.(categoryId := x)
    case ProjectCodeValue(x) => e.(projectCode := x)
    case BusinessPurposeValue(x) => e.(businessPurpose := x)
  }

  /** Writes a sequence of fields in order. */
  function SetAttrs(e: Expense, fs: seq<FieldValue>): Expense
    decreases |fs|
  {
    if fs == [] then e else SetAttrs(SetAttr(e, fs[0]), fs[1..])
  }

  /** The intended effect of an update: every sent field takes the sent value and
      every other field keeps its value. */
  function Patched(e: Expense, u: ExpenseUpdate): Expense {
    e.(amount := u.amount.Or(e.amount),
       description := u.description.Or(e.description),
       expenseDate := u.expenseDate.Or(e.expenseDate),
       categoryId := u.categoryId.Or(e.categoryId),
       projectCode := u.projectCode.Or(e.projectCode),
       businessPurpose := u.businessPurpose.Or(e.businessPurpose))
  }

  lemma {:induction false} SetAttrsAppend(e: Expense, a: seq<FieldValue>, b: seq<FieldValue>)
    ensures SetAttrs(e, a + b) == SetAttrs(SetAttrs(e, a), b)
    decreases |a|
  {
    if a != [] {
      assert (a + b)[0] == a[0] && (a + b)[1..] == a[1..] + b;
      SetAttrsAppend(SetAttr(e, a[0]), a[1..], b);
    } else {
      assert a + b == b;
    }
  }

  /** No sequence of sent fields, whatever it holds, changes the id, the owner, the
      status, the timestamps or the rejection reason of an expense. */
  lemma {:induction false} SetAttrsKeepWorkflow(e: Expense, fs: seq<FieldValue>)
    ensures WorkflowPart(SetAttrs(e, fs)) == WorkflowPart(e)
    decreases |fs|
  {
    if fs != [] {
      SetAttrsKeepWorkflow(SetAttr(e, fs[0]), fs[1..]);
    }
  }

  function Opt(b: bool, f: FieldValue): seq<FieldValue> {
    if b then [f] else []
  }

  /** Writing the sent fields of `u` in order has exactly the intended effect. */
  lemma SetSentFields(e: Expense, u: ExpenseUpdate)
    ensures SetAttrs(e, SentFields(u)) == Patched(e, u)
  {
    var s1 := Opt(u.amount.Set?, AmountValue(u.amount.Or(0)));
    var s2 := Opt(u.description.Set?, DescriptionValue(u.description.Or("")));
    var s3 := Opt(u.expenseDate.Set?, ExpenseDateValue(u.expenseDate.Or(0)));
    var s4 := Opt(u.categoryId.Set?, CategoryIdValue(u.categoryId.Or(0)));
    var s5 := Opt(u.projectCode.Set?, ProjectCodeValue(u.projectCode.Or(None)));
    var s6 := Opt(u.businessPurpose.Set?, BusinessPurposeValue(u.businessPurpose.Or(None)));
    assert SentFields(u) == s1 + s2 + s3 + s4 + s5 + s6;
    SetAttrsAppend(e, s1 + s2 + s3 + s4 + s5, s6);
    SetAttrsAppend(e, s1 + s2 + s3 + s4, s5);
    SetAttrsAppend(e, s1 + s2 + s3, s4);
    SetAttrsAppend(e, s1 + s2, s3);
    SetAttrsAppend(e, s1, s2);
  }

  /** An update keeps everything it was not sent. */
  lemma PatchKeepsUnsent(e: Expense, u: ExpenseUpdate)
    ensures WorkflowPart(Patched(e, u)) == WorkflowPart(e)
    ensures u == ExpenseUpdate() ==> Patched(e, u) == e
  {
  }

  /** After a patch, every field the update sent holds the sent value. */
  lemma PatchHoldsSent(e: Expense, u: ExpenseUpdate, f: FieldValue)
    requires f in SentFields(u)
    ensures SetAttr(Patched(e, u), f) == Patched(e, u)
  {
    assert Sends(u, f);
  }

  /** Sending the same update twice has the effect of sending it once. */
  lemma PatchIdempotent(e: Expense, u: ExpenseUpdate)
    ensures Patched(Patched(e, u), u) == Patched(e, u)
  {
  }

  /** Writes the sent fields of `u` onto `e`, one at a time. */
  method ApplyUpdate(e: Expense, u: ExpenseUpdate) returns (r: Expense)
    ensures r == Patched(e, u)
    ensures forall f :: f in SentFields(u) ==> SetAttr(r, f) == r
    ensures WorkflowPart(r) == WorkflowPart(e)
  {
    var fields := SentFields(u);
    r := e;
    var i := 0;
    while i < |fields|
      invariant 0 <= i <= |fields|
      invariant SetAttrs(r, fields[i..]) == SetAttrs(e, fields)
    {
      assert fields[i..][1..] == fields[i + 1..];
      r := SetAttr(r, fields[i]);
      i := i + 1;
    }
    SetSentFields(e, u);
    forall f | f in SentFields(u)
      ensures SetAttr(r, f) == r
    {
      PatchHoldsSent(e, u, f);
    }
  }

  // ---------------------------------------------------------------------------
  // The store and the endpoints

  class ExpenseStore {
    var categories: map<int, Category>
    var expenses: map<int, Expense>
    var approvals: map<int, Approval>
    var nextCategoryId: int
    var nextExpenseId: int
    var nextApprovalId: int

    /** Every row is stored under its own id, and every id is positive and below the
        next id the table hands out. */
    ghost predicate KeyedById()
      reads this
    {
      && 0 < nextCategoryId && 0 < nextExpenseId && 0 < nextApprovalId
      && (forall id :: id in categories ==> 0 < id < nextCategoryId && categories[id].id == id)
      && (forall id :: id in expenses ==> 0 < id < nextExpenseId && expenses[id].id == id)
      && (forall id :: id in approvals ==> 0 < id < nextApprovalId && approvals[id].id == id)
    }

    ghost predicate UniqueCategoryNames()
      reads this
    {
      forall i, j :: i in categories && j in categories && categories[i].name == categories[j].name ==> i == j
    }

    /** Every approval references a stored expense whose status is in step with its own. */
    ghost predicate ApprovalsInStep()
      reads this
    {
      AllInStep(expenses, approvals)
    }

    ghost predicate AtMostOneApproval()
      reads this
    {
      OnePerExpense(approvals)
    }

    /** An approved or rejected expense was decided through its approval. */
    ghost predicate DecisionsRecorded()
      reads this
    {
      Recorded(expenses, approvals)
    }

    ghost predicate Valid()
      reads this
    {
      KeyedById() && UniqueCategoryNames() && ApprovalsInStep() && AtMostOneApproval() && DecisionsRecorded()
    }

    /** An approved or rejected expense is never changed again. */
    twostate predicate DecidedUnchanged()
      reads this
    {
      forall id :: id in old(expenses) && old(expenses[id]).status.Decided() ==>
        id in expenses && expenses[id] == old(expenses[id])
    }

    /** The caller's own expense `id` is stored. */
    predicate Owns(caller: User, id: int)
      reads this
    {
      id in expenses && expenses[id].employeeId == caller.id
    }

    /** Approval `id` is stored and assigned to the caller. */
    predicate Assigned(caller: User, id: int)
      reads this
    {
      id in approvals && approvals[id].approverId == caller.id
    }

    predicate NameTaken(name: string)
      reads this
    {
      exists id :: id in categories && categories[id].name == name
    }

    /** The listed view of a stored expense: the expense with its approvals. */
    function ViewOf(expenseId: int): ExpenseWithApprovals
      reads this
      requires expenseId in expenses
    {
      ExpenseWithApprovals(expenses[expenseId], Collect(approvals, ForExpense(expenseId), nextApprovalId))
    }

    constructor ()
      ensures Valid()
      ensures categories == map[] && expenses == map[] && approvals == map[]
      ensures nextCategoryId == 1 && nextExpenseId == 1 && nextApprovalId == 1
    {
      categories, expenses, approvals := map[], map[], map[];
      nextCategoryId, nextExpenseId, nextApprovalId := 1, 1, 1;
    }

    /** The approvals of an expense, in id order, are those that reference it, and there
        is at most one. */
    lemma ApprovalsOfExpense(expenseId: int)
      requires Valid()
      ensures forall a :: a in Collect(approvals, ForExpense(expenseId), nextApprovalId) <==>
                a.id in approvals && approvals[a.id] == a && a.expenseId == expenseId
      ensures |Collect(approvals, ForExpense(expenseId), nextApprovalId)| <= 1
    {
      forall a {
        CollectKeyed(approvals, (x: Approval) => x.id, ForExpense(expenseId), nextApprovalId, a);
      }
      CollectAtMostOne(approvals, ForExpense(expenseId), nextApprovalId);
    }

    /** An approval is the one and only approval of its expense. */
    lemma SoleApproval(id: int)
      requires Valid() && id in approvals
      ensures Collect(approvals, ForExpense(approvals[id].expenseId), nextApprovalId) == [approvals[id]]
    {
      var s := Collect(approvals, ForExpense(approvals[id].expenseId), nextApprovalId);
      ApprovalsOfExpense(approvals[id].expenseId);
      assert approvals[id] in s;
    }

    method CreateExpense(caller: User, data: ExpenseCreate, now: Time) returns (r: Result<Expense>)
      requires Valid()
      modifies this
      ensures Valid() && DecidedUnchanged()
      ensures data.categoryId !in old(categories) ==> r == Err(NotFound("Category not found")) && unchanged(this)
      ensures data.categoryId in old(categories) ==>
        && r.Ok?
        && PayloadOf(r.value) == data
        && r.value.id == old(nextExpenseId) && r.value.id !in old(expenses)
        && r.value.employeeId == caller.id && r.value.status == Draft
        && r.value.submittedAt == None && r.value.approvedAt == None && r.value.rejectedAt == None
        && r.value.rejectionReason == None && r.value.createdAt == now && r.value.updatedAt == now
        && expenses == old(expenses)[r.value.id := r.value]
        && nextExpenseId == old(nextExpenseId) + 1
        && unchanged(this`categories, this`approvals, this`nextCategoryId, this`nextApprovalId)
    {
      if data.categoryId !in categories {
        return Err(NotFound("Category not found"));
      }
      var e := Expense(nextExpenseId, caller.id, data.amount, data.currency, data.description,
                       data.expenseDate, data.categoryId, data.projectCode, data.businessPurpose,
                       Draft, None, None, None, None, now, now);
      expenses := expenses[e.id := e];
      nextExpenseId := nextExpenseId + 1;
      RecordedKept(old(expenses), approvals, expenses, approvals);
      r := Ok(e);
    }

    /** The caller's expenses, filtered by status when a filter is given, windowed by
        `skip` and `limit`. */
    method GetExpenses(caller: User, skip: int, limit: int, status: Option<string>) returns (r: seq<Expense>)
      requires Valid()
      ensures r == Window(Collect(expenses, OwnedBy(caller.id, status), nextExpenseId), skip, limit)
      ensures forall e :: e in r ==> e.id in expenses && expenses[e.id] == e && e.employeeId == caller.id
      ensures forall e :: e in r && status.Some? && status.value != "" ==> e.status.Name() == status.value
      ensures 0 <= limit ==> |r| <= limit
      ensures skip <= 0 && limit < 0 ==>
        forall id :: Owns(caller, id) && Admits(status, expenses[id].status) ==> expenses[id] in r
    {
      var listed := Collect(expenses, OwnedBy(caller.id, status), nextExpenseId);
      r := Window(listed, skip, limit);
      forall e {
        CollectKeyed(expenses, (x: Expense) => x.id, OwnedBy(caller.id, status), nextExpenseId, e);
      }
      if skip <= 0 && limit < 0 {
        assert r == listed;
      }
    }

    method GetExpense(caller: User, expenseId: int) returns (r: Result<ExpenseWithApprovals>)
      requires Valid()
      ensures r.Err? <==> !Owns(caller, expenseId)
      ensures r.Err? ==> r.error == NotFound("Expense not found")
      ensures r.Ok? ==> r.value.expense == expenses[expenseId]
      ensures r.Ok? ==> forall a :: a in r.value.approvals <==>
                a.id in approvals && approvals[a.id] == a && a.expenseId == expenseId
      ensures r.Ok? ==> |r.value.approvals| <= 1
    {
      if !(expenseId in expenses && expenses[expenseId].employeeId == caller.id) {
        return Err(NotFound("Expense not found"));
      }
      ApprovalsOfExpense(expenseId);
      r := Ok(ViewOf(expenseId));
    }

    method UpdateExpense(caller: User, expenseId: int, data: ExpenseUpdate, now: Time) returns (r: Result<Expense>)
      requires Valid()
      modifies this
      ensures Valid() && DecidedUnchanged()
      ensures !old(Owns(caller, expenseId)) ==> r == Err(NotFound("Expense not found")) && unchanged(this)
      ensures old(Owns(caller, expenseId)) && old(expenses[expenseId]).status != Draft ==>
        r == Err(BadRequest("Can only update draft expenses")) && unchanged(this)
      ensures old(Owns(caller, expenseId)) && old(expenses[expenseId]).status == Draft ==>
        && r == Ok(Patched(old(expenses[expenseId]), data).(updatedAt := now))
        && expenses == old(expenses)[expenseId := r.value]
        && unchanged(this`categories, this`approvals, this`nextCategoryId, this`nextExpenseId, this`nextApprovalId)
    {
      if !(expenseId in expenses && expenses[expenseId].employeeId == caller.id) {
        return Err(NotFound("Expense not found"));
      }
      if expenses[expenseId].status != Draft {
        return Err(BadRequest("Can only update draft expenses"));
      }
      var e := ApplyUpdate(expenses[expenseId], data);
      e := e.(updatedAt := now);
      expenses := expenses[expenseId := e];
      RecordedKept(old(expenses), approvals, expenses, approvals);
      r := Ok(e);
    }

    method SubmitExpense(caller: User, expenseId: int, now: Time) returns (r: Result<string>)
      requires Valid()
      modifies this
      ensures Valid() && DecidedUnchanged()
      ensures !old(Owns(caller, expenseId)) ==> r == Err(NotFound("Expense not found")) && unchanged(this)
      ensures old(Owns(caller, expenseId)) && old(expenses[expenseId]).status != Draft ==>
        r == Err(BadRequest("Can only submit draft expenses")) && unchanged(this)
      ensures old(Owns(caller, expenseId)) && old(expenses[expenseId]).status == Draft ==>
        && r == Ok("Expense submitted for approval")
        && expenses == old(expenses)[expenseId := old(expenses[expenseId]).(status := Submitted, submittedAt := Some(now))]
        && unchanged(this`categories, this`nextCategoryId, this`nextExpenseId)
        && (HasManager(caller) ==>
              && old(nextApprovalId) !in old(approvals)
              && approvals == old(approvals)[old(nextApprovalId) :=
                   Approval(old(nextApprovalId), expenseId, caller.managerId.value, Pending, None, None)]
              && nextApprovalId == old(nextApprovalId) + 1)
        && (!HasManager(caller) ==> unchanged(this`approvals, this`nextApprovalId))
    {
      if !(expenseId in expenses && expenses[expenseId].employeeId == caller.id) {
        return Err(NotFound("Expense not found"));
      }
      if expenses[expenseId].status != Draft {
        return Err(BadRequest("Can only submit draft expenses"));
      }
      var e := expenses[expenseId].(status := Submitted, submittedAt := Some(now));
      SubmitKeepsStep(expenses, approvals, expenseId, e);
      expenses := expenses[expenseId := e];
      if HasManager(caller) {
        var a := Approval(nextApprovalId, expenseId, caller.managerId.value, Pending, None, None);
        AddPendingKeeps(expenses, approvals, a);
        approvals := approvals[a.id := a];
        nextApprovalId := nextApprovalId + 1;
      }
      r := Ok("Expense submitted for approval");
    }

    /** The active categories, in id order. */
    method GetCategories() returns (r: seq<Category>)
      requires Valid()
      ensures forall c :: c in r <==> c.id in categories && categories[c.id] == c && c.isActive
    {
      r := Collect(categories, Active(), nextCategoryId);
      forall c {
        CollectKeyed(categories, (x: Category) => x.id, Active(), nextCategoryId, c);
      }
    }

    method CreateCategory(caller: User, data: CategoryCreate, now: Time) returns (r: Result<Category>)
      requires Valid()
      modifies this
      ensures Valid() && DecidedUnchanged()
      ensures !caller.isAdmin ==> r == Err(Forbidden("Not enough permissions")) && unchanged(this)
      ensures caller.isAdmin && old(NameTaken(data.name)) ==>
        r == Err(BadRequest("Category already exists")) && unchanged(this)
      ensures caller.isAdmin && !old(NameTaken(data.name)) ==>
        && r == Ok(Category(old(nextCategoryId), data.name, data.description, true, now))
        && r.value.id !in old(categories)
        && categories == old(categories)[r.value.id := r.value]
        && nextCategoryId == old(nextCategoryId) + 1
        && unchanged(this`expenses, this`approvals, this`nextExpenseId, this`nextApprovalId)
    {
      if !caller.isAdmin {
        return Err(Forbidden("Not enough permissions"));
      }
      if exists id :: id in categories && categories[id].name == data.name {
        return Err(BadRequest("Category already exists"));
      }
      var c := Category(nextCategoryId, data.name, data.description, true, now);
      categories := categories[c.id := c];
      nextCategoryId := nextCategoryId + 1;
      r := Ok(c);
    }

    /** The caller's pending approvals, in id order. */
    function PendingOf(approverId: int): seq<Approval>
      reads this
    {
      Collect(approvals, PendingFor(approverId), nextApprovalId)
    }

    /** `v` is the listed row of approval `a`: a stored approval pending with the caller,
        shown with its expense and, as that expense's only approval, itself. */
    ghost predicate PendingRow(approverId: int, a: Approval, v: ExpenseWithApprovals)
      reads this
    {
      && a.id in approvals && approvals[a.id] == a
      && a.approverId == approverId && a.status == Pending
      && a.expenseId in expenses
      && v == ExpenseWithApprovals(expenses[a.expenseId], [a])
    }

    lemma PendingRows(approverId: int)
      requires Valid()
      ensures forall a :: a in PendingOf(approverId) <==>
        a.id in approvals && approvals[a.id] == a && a.approverId == approverId && a.status == Pending
    {
      forall a {
        CollectKeyed(approvals, (x: Approval) => x.id, PendingFor(approverId), nextApprovalId, a);
      }
    }

    /** Every expense listed for a pending approval is submitted. */
    lemma PendingRowsSubmitted(approverId: int, ps: seq<Approval>, r: seq<ExpenseWithApprovals>)
      requires Valid()
      requires |r| == |ps| && forall j :: 0 <= j < |r| ==> PendingRow(approverId, ps[j], r[j])
      ensures forall v :: v in r ==> v.expense.status == Submitted
    {
      forall v | v in r
        ensures v.expense.status == Submitted
      {
        var j :| 0 <= j < |r| && r[j] == v;
        assert PendingRow(approverId, ps[j], r[j]);
        assert ps[j].id in approvals;
      }
    }

    /** A listing with one row per pending approval lists every pending approval. */
    lemma PendingRowsComplete(approverId: int, r: seq<ExpenseWithApprovals>)
      requires Valid()
      requires |r| == |PendingOf(approverId)|
      requires forall j :: 0 <= j < |r| ==> PendingRow(approverId, PendingOf(approverId)[j], r[j])
      ensures forall id :: id in approvals && approvals[id].approverId == approverId && approvals[id].status == Pending ==>
        ExpenseWithApprovals(expenses[approvals[id].expenseId], [approvals[id]]) in r
    {
      var pending := PendingOf(approverId);
      PendingRows(approverId);
      forall id | id in approvals && approvals[id].approverId == approverId && approvals[id].status == Pending
        ensures ExpenseWithApprovals(expenses[approvals[id].expenseId], [approvals[id]]) in r
      {
        assert approvals[id].id == id;
        assert approvals[id] in pending;
        var j :| 0 <= j < |pending| && pending[j] == approvals[id];
        assert PendingRow(approverId, pending[j], r[j]);
      }
    }

    /** The expenses whose approval is pending with the caller, one per such approval,
        in approval id order. */
    method GetPendingApprovals(caller: User) returns (r: seq<ExpenseWithApprovals>)
      requires Valid()
      ensures |r| == |PendingOf(caller.id)|
      ensures forall i :: 0 <= i < |r| ==> PendingRow(caller.id, PendingOf(caller.id)[i], r[i])
      ensures forall v :: v in r ==> v.expense.status == Submitted
      ensures forall id :: Assigned(caller, id) && approvals[id].status == Pending ==>
        ExpenseWithApprovals(expenses[approvals[id].expenseId], [approvals[id]]) in r
    {
      var pending := PendingOf(caller.id);
      PendingRows(caller.id);
      r := [];
      for i := 0 to |pending|
        invariant |r| == i
        invariant forall j :: 0 <= j < i ==> PendingRow(caller.id, pending[j], r[j])
      {
        var a := pending[i];
        assert a in pending;
        SoleApproval(a.id);
        r := r + [ViewOf(a.expenseId)];
      }
      PendingRowsSubmitted(caller.id, pending, r);
      PendingRowsComplete(caller.id, r);
    }

    method ApproveExpense(caller: User, approvalId: int, comments: Option<string>, now: Time) returns (r: Result<string>)
      requires Valid()
      modifies this
      ensures Valid() && DecidedUnchanged()
      ensures !old(Assigned(caller, approvalId)) ==> r == Err(NotFound("Approval not found")) && unchanged(this)
      ensures old(Assigned(caller, approvalId)) && old(approvals[approvalId]).status != Pending ==>
        r == Err(BadRequest("Approval already processed")) && unchanged(this)
      ensures old(Assigned(caller, approvalId)) && old(approvals[approvalId]).status == Pending ==>
        var a := old(approvals[approvalId]);
        && r == Ok("Expense approved")
        && old(expenses[a.expenseId]).status == Submitted
        && approvals == old(approvals)[approvalId := a.(status := Approved, comments := comments, approvedAt := Some(now))]
        && expenses == old(expenses)[a.expenseId := old(expenses[a.expenseId]).(status := Approved, approvedAt := Some(now))]
        && unchanged(this`categories, this`nextCategoryId, this`nextExpenseId, this`nextApprovalId)
    {
      if !(approvalId in approvals && approvals[approvalId].approverId == caller.id) {
        return Err(NotFound("Approval not found"));
      }
      var a := approvals[approvalId];
      if a.status != Pending {
        return Err(BadRequest("Approval already processed"));
      }
      approvals := approvals[approvalId := a.(status := Approved, comments := comments, approvedAt := Some(now))];
      var e := expenses[a.expenseId];
      expenses := expenses[a.expenseId := e.(status := Approved, approvedAt := Some(now))];
      forall id | id in expenses && expenses[id].status.Decided()
        ensures exists x :: x in approvals && approvals[x].expenseId == id
      {
        if id == a.expenseId {
          assert approvals[approvalId].expenseId == id;
        } else {
          var x :| x in old(approvals) && old(approvals)[x].expenseId == id;
          assert x in approvals && approvals[x].expenseId == id;
        }
      }
      r := Ok("Expense approved");
    }

    method RejectExpense(caller: User, approvalId: int, comments: string, now: Time) returns (r: Result<string>)
      requires Valid()
      modifies this
      ensures Valid() && DecidedUnchanged()
      ensures !old(Assigned(caller, approvalId)) ==> r == Err(NotFound("Approval not found")) && unchanged(this)
      ensures old(Assigned(caller, approvalId)) && old(approvals[approvalId]).status != Pending ==>
        r == Err(BadRequest("Approval already processed")) && unchanged(this)
      ensures old(Assigned(caller, approvalId)) && old(approvals[approvalId]).status == Pending ==>
        var a := old(approvals[approvalId]);
        && r == Ok("Expense rejected")
        && old(expenses[a.expenseId]).status == Submitted
        && approvals == old(approvals)[approvalId := a.(status := Rejected, comments := Some(comments), approvedAt := Some(now))]
        && expenses == old(expenses)[a.expenseId := old(expenses[a.expenseId]).(
             status := Rejected, rejectedAt := Some(now), rejectionReason := Some(comments))]
        && unchanged(this`categories, this`nextCategoryId, this`nextExpenseId, this`nextApprovalId)
    {
      if !(approvalId in approvals && approvals[approvalId].approverId == caller.id) {
        return Err(NotFound("Approval not found"));
      }
      var a := approvals[approvalId];
      if a.status != Pending {
        return Err(BadRequest("Approval already processed"));
      }
      approvals := approvals[approvalId := a.(status := Rejected, comments := Some(comments), approvedAt := Some(now))];
      var e := expenses[a.expenseId];
      expenses := expenses[a.expenseId := e.(status := Rejected, rejectedAt := Some(now), rejectionReason := Some(comments))];
      forall id | id in expenses && expenses[id].status.Decided()
        ensures exists x :: x in approvals && approvals[x].expenseId == id
      {
        if id == a.expenseId {
          assert approvals[approvalId].expenseId == id;
        } else {
          var x :| x in old(approvals) && old(approvals)[x].expenseId == id;
          assert x in approvals && approvals[x].expenseId == id;
        }
      }
      r := Ok("Expense rejected");
    }
  }
}
