/** Clients of the expense store: the workflow's test scenarios, and the properties
    that take more than one call to state. */
module Scenarios {
  import opened Schemas
  import opened Expenses

  /** Once an approval is approved, rejecting it fails. */
  method ApproveThenReject(s: ExpenseStore, approver: User, approvalId: int,
                           comments: Option<string>, reason: string, now: Time)
    returns (first: Result<string>, second: Result<string>)
    requires s.Valid()
    modifies s
    ensures s.Valid()
    ensures first.Ok? ==> second == Err(BadRequest("Approval already processed"))
    ensures first.Ok? ==> approvalId in s.approvals && s.approvals[approvalId].status == Approved
  {
    first := s.ApproveExpense(approver, approvalId, comments, now);
    second := s.RejectExpense(approver, approvalId, reason, now);
  }

  /** Once an approval is rejected, approving it fails. */
  method RejectThenApprove(s: ExpenseStore, approver: User, approvalId: int,
                           reason: string, comments: Option<string>, now: Time)
    returns (first: Result<string>, second: Result<string>)
    requires s.Valid()
    modifies s
    ensures s.Valid()
    ensures first.Ok? ==> second == Err(BadRequest("Approval already processed"))
    ensures first.Ok? ==> approvalId in s.approvals && s.approvals[approvalId].status == Rejected
  {
    first := s.RejectExpense(approver, approvalId, reason, now);
    second := s.ApproveExpense(approver, approvalId, comments, now);
  }

  /** An expense naming a category that does not exist is refused. */
  method CreateWithUnknownCategory() returns (r: Result<Expense>)
    ensures r == Err(NotFound("Category not found"))
  {
    var s := new ExpenseStore();
    var employee := User(1, false, None);
    r := s.CreateExpense(employee, ExpenseCreate(amount := 9999, description := "Test expense",
                                                 expenseDate := 0, categoryId := 99999), 0);
  }

  /** A regular user may not create a category; an administrator may, once per name. */
  method CategoryAdminOnly() returns (asUser: Result<Category>, asAdmin: Result<Category>, again: Result<Category>)
    ensures asUser == Err(Forbidden("Not enough permissions"))
    ensures asAdmin.Ok? && asAdmin.value.name == "New Category" && asAdmin.value.isActive
    ensures again == Err(BadRequest("Category already exists"))
  {
    var s := new ExpenseStore();
    var user := User(1, false, None);
    var admin := User(2, true, None);
    var data := CategoryCreate("New Category", Some("A new category"));
    asUser := s.CreateCategory(user, data, 0);
    asAdmin := s.CreateCategory(admin, data, 0);
    again := s.CreateCategory(admin, data, 1);
  }

  /** An expense is created as a draft, submitted to the employee's manager and approved
      by that manager; afterwards neither an update, nor a rejection, nor another
      manager's approval has any effect. */
  method SubmitAndApprove()
    returns (created: Result<Expense>, submitted: Result<string>, approved: Result<string>,
             update: Result<Expense>, reject: Result<string>, stranger: Result<string>)
    ensures created.Ok? && created.value.status == Draft && created.value.employeeId == 1
    ensures created.value.amount == 9999 && created.value.currency == "USD"
    ensures submitted == Ok("Expense submitted for approval")
    ensures approved == Ok("Expense approved")
    ensures update == Err(BadRequest("Can only update draft expenses"))
    ensures reject == Err(BadRequest("Approval already processed"))
    ensures stranger == Err(NotFound("Approval not found"))
  {
    var s := new ExpenseStore();
    var admin := User(3, true, None);
    var manager := User(2, false, None);
    var employee := User(1, false, Some(2));
    var travel := s.CreateCategory(admin, CategoryCreate("Travel", Some("Travel related expenses")), 0);
    created := s.CreateExpense(employee, ExpenseCreate(amount := 9999, description := "Test expense",
                                                       expenseDate := 0, categoryId := travel.value.id), 1);
    var expenseId := created.value.id;
    submitted := s.SubmitExpense(employee, expenseId, 2);
    assert s.approvals[1] == Approval(1, expenseId, 2, Pending, None, None);
    stranger := s.ApproveExpense(admin, 1, None, 3);
    approved := s.ApproveExpense(manager, 1, Some("ok"), 3);
    assert s.expenses[expenseId].status == Approved && s.expenses[expenseId].approvedAt == Some(3);
    update := s.UpdateExpense(employee, expenseId, ExpenseUpdate(amount := Set(100)), 4);
    reject := s.RejectExpense(manager, 1, "too late", 5);
  }

  /** Without a manager, submission creates no approval and nothing is pending. */
  method SubmitWithoutManager() returns (submitted: Result<string>, pending: seq<ExpenseWithApprovals>)
    ensures submitted == Ok("Expense submitted for approval")
    ensures pending == []
  {
    var s := new ExpenseStore();
    var admin := User(3, true, None);
    var employee := User(1, false, None);
    var travel := s.CreateCategory(admin, CategoryCreate("Travel"), 0);
    var created := s.CreateExpense(employee, ExpenseCreate(amount := 100, description := "Taxi",
                                                           expenseDate := 0, categoryId := travel.value.id), 1);
    submitted := s.SubmitExpense(employee, created.value.id, 2);
    assert s.approvals == map[];
    pending := s.GetPendingApprovals(User(0, false, None));
  }

  /** A store holding employee 1's draft "Draft" (id 1) and submitted "Submitted" (id 2). */
  method DraftAndSubmitted() returns (s: ExpenseStore)
    ensures fresh(s) && s.Valid() && s.nextExpenseId == 3
    ensures 1 in s.expenses && 2 in s.expenses && s.expenses.Keys == {1, 2}
    ensures s.expenses[1].employeeId == 1 && s.expenses[1].status == Draft
    ensures s.expenses[1].description == "Draft"
    ensures s.expenses[2].employeeId == 1 && s.expenses[2].status == Submitted
  {
    s := new ExpenseStore();
    var admin := User(3, true, None);
    var employee := User(1, false, None);
    var travel := s.CreateCategory(admin, CategoryCreate("Travel"), 0);
    var first := s.CreateExpense(employee, ExpenseCreate(amount := 100, description := "Draft",
                                                         expenseDate := 0, categoryId := travel.value.id), 1);
    var second := s.CreateExpense(employee, ExpenseCreate(amount := 200, description := "Submitted",
                                                          expenseDate := 0, categoryId := travel.value.id), 1);
    var _ := s.SubmitExpense(employee, second.value.id, 2);
  }

  /** Listing without a filter returns both of the employee's expenses. */
  method ListWithoutFilter() returns (all: seq<Expense>)
    ensures |all| == 2 && all[0].status == Draft && all[1].status == Submitted
  {
    var s := DraftAndSubmitted();
    all := s.GetExpenses(User(1, false, None), 0, 100, None);
  }

  /** Listing with the filter "draft" returns the draft alone. */
  method ListWithStatusFilter() returns (drafts: seq<Expense>)
    ensures |drafts| == 1 && drafts[0].description == "Draft" && drafts[0].status == Draft
  {
    var s := DraftAndSubmitted();
    drafts := s.GetExpenses(User(1, false, None), 0, 100, Some("draft"));
  }
}
