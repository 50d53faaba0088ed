# ExpenseFlow approval workflow in Dafny

This project models the expense-approval workflow of the ExpenseFlow backend's v1 API
(`app/api/v1/expenses.py`) and the record shapes of its request schemas
(`app/schemas/expense.py`), and proves properties of the model.

The workflow keeps three tables:

- categories, created only by administrators and with unique names;
- expenses, created as `draft`, editable only while `draft`, and moved by submission to
  `submitted`;
- approvals, one `pending` approval added at submission when the submitter has a manager.
  The assigned manager approves or rejects it, and that decision moves the approval and its
  expense together to `approved` or `rejected`.

Files:

- `schemas.dfy`, module `Schemas`. The payloads `CategoryCreate`, `ExpenseCreate` and
  `ExpenseUpdate` are datatypes, with the source's defaults as constructor defaults. The stored
  rows `Category`, `Expense` and `Approval` and the caller `User` are datatypes too. An update
  field is `Unset` or `Set(v)`: only the fields the client sent take part in an update, and the
  nullable ones can be sent as null to clear them.
- `queries.dfy`, module `Queries`. The two query shapes the endpoints use:
  - `Collect`, a filtered scan of one table in id order;
  - `Window`, OFFSET/LIMIT with the rules of SQLite, the configured default store: a negative
    offset counts as 0 and a negative limit as no limit.
- `expenses.dfy`, module `Expenses`. The class `ExpenseStore` holds the three tables as maps
  from id to row, plus the next id of each table. It has one method per endpoint, and each
  returns `Ok` or an `Error` (`NotFound`, `Forbidden`, `BadRequest`) with the source's detail
  text. `ApplyUpdate` is the update loop that writes the sent fields one at a time.
  `ExpenseStore.Valid()` is the store invariant. Every mutating method preserves it:
  - every row is stored under its own id;
  - category names are unique;
  - every approval references a stored expense, and its status is in step with that
    expense's: `pending` goes with `submitted`, and `approved` or `rejected` with the same
    decision;
  - an expense has at most one approval;
  - every approved or rejected expense has its approval.

  Every mutating method also ensures `DecidedUnchanged()`: an approved or rejected expense is
  never changed again.
- `scenarios.dfy`, module `Scenarios`. Clients of the store:
  - if approve succeeds, a later reject fails, and the other way round;
  - scenarios that mirror `tests/test_expenses.py`.

The model follows the code in the places where the code and the workflow's design description
differ:

- A caller who is not the assigned approver gets `NotFound` ("Approval not found"), because the
  approval lookup itself filters on the approver. It does not get `Forbidden`.
- A duplicate category name gets `BadRequest` ("Category already exists"), not a separate
  conflict kind.
- Reject accepts any comment string, including the empty one.
- Neither approve nor reject checks the expense's status. The store invariant proves the check
  unnecessary: the expense of a pending approval is always `submitted`. Both methods state this
  in their postconditions.
- Update does not check that a newly sent `category_id` names a category. Only creation checks
  it.

## Model

| member | source | states |
|---|---|---|
| `Schemas.ExpenseCreateDefaults` | examples/expenseflow/implementation/backend/app/schemas/expense.py:20-30 | an expense payload that leaves them out has currency "USD", no project code and no business purpose |
| `Schemas.SentFields` | examples/expenseflow/implementation/backend/app/schemas/expense.py:32-38 | the sent fields of an update hold an entry for a field and value exactly when the payload sends that field with that value; there are at most six |
| `Schemas.EmptyUpdateSendsNothing` | examples/expenseflow/implementation/backend/app/schemas/expense.py:32-38 | an update payload that names no field sends no field |
| `Schemas.SplitExpense` | examples/expenseflow/implementation/backend/app/schemas/expense.py:40-51 | an expense row is determined by its client-supplied payload part together with its workflow-written part |
| `Schemas.NameInjective` | examples/expenseflow/implementation/backend/app/api/v1/expenses.py:57-58 | two statuses have the same stored string exactly when they are the same status, so filtering on the string filters on the status |
| `Queries.Collect` | examples/expenseflow/implementation/backend/app/api/v1/expenses.py:55-58 | a scan over ids below n yields at most n rows |
| `Queries.CollectBelow` | examples/expenseflow/implementation/backend/app/api/v1/expenses.py:55-58 | a row is in the scan exactly when some id below n stores it and it passes the filter |
| `Queries.CollectKeyed` | examples/expenseflow/implementation/backend/app/api/v1/expenses.py:55-58 | in a table keyed by row id, a row is in the scan exactly when it is stored under its id and passes the filter |
| `Queries.CollectNone` | examples/expenseflow/implementation/backend/app/api/v1/expenses.py:204-207 | a scan that no row passes is empty |
| `Queries.CollectAtMostOne` | examples/expenseflow/implementation/backend/app/api/v1/expenses.py:137-153 | a scan that at most one row can pass yields at most one row |
| `Queries.Window` | examples/expenseflow/implementation/backend/app/api/v1/expenses.py:60 | OFFSET/LIMIT keeps the consecutive rows starting at max(skip, 0); there are at most `limit` of them when `limit` is not negative, and every kept row is a row of the input |
| `Expenses.RecordedKept` | examples/expenseflow/implementation/backend/app/api/v1/expenses.py:126-157 | a step that decides no expense and removes no approval keeps every decided expense's approval |
| `Expenses.SubmitKeepsStep` | examples/expenseflow/implementation/backend/app/api/v1/expenses.py:137-144 | no approval references a draft, and submitting it keeps every approval in step with its expense |
| `Expenses.AddPendingKeeps` | examples/expenseflow/implementation/backend/app/api/v1/expenses.py:146-153 | adding a pending approval under a fresh id for a submitted expense without one keeps the approvals in step, one per expense, and the decided expenses recorded |
| `Expenses.SetAttrsAppend` | examples/expenseflow/implementation/backend/app/api/v1/expenses.py:110-111 | writing the fields of a + b in order is writing a, then b |
| `Expenses.SetAttrsKeepWorkflow` | examples/expenseflow/implementation/backend/app/api/v1/expenses.py:109-111 | no sequence of update fields changes an expense's id, owner, status, timestamps or rejection reason, because an update payload has no such field |
| `Expenses.SetSentFields` | examples/expenseflow/implementation/backend/app/api/v1/expenses.py:109-111 | writing the sent fields in order gives the intended patch: each sent field takes its value and every other field is kept |
| `Expenses.PatchKeepsUnsent` | examples/expenseflow/implementation/backend/app/api/v1/expenses.py:109-111 | a patch keeps the workflow part of the expense, and an empty patch changes nothing |
| `Expenses.PatchHoldsSent` | examples/expenseflow/implementation/backend/app/api/v1/expenses.py:109-111 | after the patch, writing any sent field again changes nothing: every sent field already holds its sent value |
| `Expenses.PatchIdempotent` | examples/expenseflow/implementation/backend/app/api/v1/expenses.py:109-111 | applying the same update twice equals applying it once |
| `Expenses.ApplyUpdate` | examples/expenseflow/implementation/backend/app/api/v1/expenses.py:109-111 | the setattr loop produces the intended patch: every sent field holds its sent value afterwards, and the workflow part is unchanged |
| `Expenses.ExpenseStore.ApprovalsOfExpense` | examples/expenseflow/implementation/backend/app/schemas/expense.py:77-78 | the approvals listed with an expense are exactly the stored approvals that reference it, and there is at most one |
| `Expenses.ExpenseStore.SoleApproval` | examples/expenseflow/implementation/backend/app/api/v1/expenses.py:137-153 | a stored approval is the only approval of its expense |
| `Expenses.ExpenseStore.CreateExpense` | examples/expenseflow/implementation/backend/app/api/v1/expenses.py:26-44 | an unknown category id gives NotFound and changes nothing; otherwise exactly one new expense is added under a fresh id: its payload part is the request, its owner is the caller, its status is draft and no decision timestamp is set |
| `Expenses.ExpenseStore.GetExpenses` | examples/expenseflow/implementation/backend/app/api/v1/expenses.py:55-61 | the result is the skip/limit window of the caller's expenses that pass the status filter, in id order: every row is a stored expense of the caller; with a non-empty filter every row has that status; there are at most `limit` rows; an unbounded window holds every matching expense |
| `Expenses.ExpenseStore.GetExpense` | examples/expenseflow/implementation/backend/app/api/v1/expenses.py:70-81 | NotFound exactly when the expense is missing or belongs to someone else; otherwise the stored expense with exactly its approvals, of which there is at most one |
| `Expenses.ExpenseStore.UpdateExpense` | examples/expenseflow/implementation/backend/app/api/v1/expenses.py:91-117 | a missing or foreign expense gives NotFound and a non-draft expense gives BadRequest, both with no change; otherwise only that expense changes, to the patch of the sent fields with a new updated_at |
| `Expenses.ExpenseStore.SubmitExpense` | examples/expenseflow/implementation/backend/app/api/v1/expenses.py:126-157 | a missing or foreign expense gives NotFound and a non-draft expense gives BadRequest, both with no change; otherwise the expense becomes submitted with submitted_at set, and exactly one pending approval for the caller's manager is added when the caller has a manager, none otherwise |
| `Expenses.ExpenseStore.GetCategories` | examples/expenseflow/implementation/backend/app/api/v1/expenses.py:165-167 | the result holds exactly the stored active categories |
| `Expenses.ExpenseStore.CreateCategory` | examples/expenseflow/implementation/backend/app/api/v1/expenses.py:176-195 | a non-admin gets Forbidden before any lookup; an existing name gives BadRequest; both change nothing; otherwise exactly one active category with the requested name and description is added under a fresh id |
| `Expenses.ExpenseStore.PendingRows` | examples/expenseflow/implementation/backend/app/api/v1/expenses.py:204-207 | the pending scan holds exactly the stored approvals assigned to the caller with status pending |
| `Expenses.ExpenseStore.PendingRowsSubmitted` | examples/expenseflow/implementation/backend/app/api/v1/expenses.py:204-210 | the expense listed with a pending approval is submitted |
| `Expenses.ExpenseStore.PendingRowsComplete` | examples/expenseflow/implementation/backend/app/api/v1/expenses.py:204-210 | every approval pending with the caller appears in the listing with its expense |
| `Expenses.ExpenseStore.GetPendingApprovals` | examples/expenseflow/implementation/backend/app/api/v1/expenses.py:204-210 | one row per approval pending with the caller, in id order, holding that approval's expense with that approval as its only one; every listed expense is submitted; every such approval's expense is listed |
| `Expenses.ExpenseStore.ApproveExpense` | examples/expenseflow/implementation/backend/app/api/v1/expenses.py:220-249 | NotFound unless the approval exists and is assigned to the caller; BadRequest unless it is pending; both change nothing; otherwise the approval becomes approved with the given comments and approved_at, and its expense, which was submitted, becomes approved with approved_at; nothing else changes |
| `Expenses.ExpenseStore.RejectExpense` | examples/expenseflow/implementation/backend/app/api/v1/expenses.py:259-289 | NotFound unless the approval exists and is assigned to the caller; BadRequest unless it is pending; both change nothing; otherwise the approval becomes rejected with the comments, and its expense, which was submitted, becomes rejected with rejected_at and the comments as rejection reason; nothing else changes |
| `Scenarios.ApproveThenReject` | examples/expenseflow/implementation/backend/app/api/v1/expenses.py:231-274 | after a successful approve, a reject of the same approval fails with "Approval already processed" |
| `Scenarios.RejectThenApprove` | examples/expenseflow/implementation/backend/app/api/v1/expenses.py:231-274 | after a successful reject, an approve of the same approval fails with "Approval already processed" |
| `Scenarios.CreateWithUnknownCategory` | examples/expenseflow/implementation/backend/tests/test_expenses.py:25-36 | an expense naming category 99999 in an empty store gives NotFound "Category not found" |
| `Scenarios.CategoryAdminOnly` | examples/expenseflow/implementation/backend/tests/test_expenses.py:161-186 | a regular user gets Forbidden; an admin creates the category; a second creation with that name gives BadRequest |
| `Scenarios.SubmitAndApprove` | examples/expenseflow/implementation/backend/tests/test_expenses.py:129-150 | a created expense is a draft in USD; submitting, then approving as the manager, succeeds; a different user's approve gives NotFound; afterwards update and reject fail |
| `Scenarios.SubmitWithoutManager` | examples/expenseflow/implementation/backend/app/api/v1/expenses.py:146-153 | a submission by an employee without a manager succeeds, creates no approval and leaves nothing pending |
| `Scenarios.ListWithoutFilter` | examples/expenseflow/implementation/backend/tests/test_expenses.py:60-79 | with one draft and one submitted expense of the caller, the unfiltered list has two rows, the draft first |
| `Scenarios.ListWithStatusFilter` | examples/expenseflow/implementation/backend/tests/test_expenses.py:60-79 | with one draft and one submitted expense of the caller, the "draft" list holds exactly the draft |

## Left out

- HTTP routing, status codes and `HTTPException`: each failure is an `Error` value with the
  source's detail text.
- Authentication: the caller is a `User` value with an id, an admin flag and an optional
  manager id. Token handling, password hashing and user management are not modelled.
- The database session, commit and refresh. Each method is one atomic step on the store.
  Serialising concurrent approve and reject calls is left to the storage layer and is not
  modelled.
- Rows written to the database other than through these endpoints, such as test fixtures that
  insert submitted expenses directly. The store invariant holds only for states the endpoints
  reach.
- Clock reads become a `now` parameter. Approve and reject read the clock twice; the model
  uses one value for both reads.
- The `created_at` and `updated_at` defaults of the database models: `models/expense.py` is not
  part of this model. A new expense gets `now` for both, and a new category gets `is_active =
  true`, the value the active-category listing relies on. Approvals carry no creation or
  update timestamps.
- Amounts are integers (minor units). The source's floating-point amounts are not modelled.
- Receipt upload and the `receipt_url` and `receipt_filename` columns. They belong to file
  storage, which is not part of the core.
- The nested `category` object in expense responses, the unused `ApprovalCreate` schema, and
  category deactivation. No endpoint of the core changes `is_active`.
- An explicit null for `amount`, `description`, `expense_date` or `category_id` in an update:
  those update fields are `Field<T>` without a null value. The non-null column constraints that
  would reject such a write are in the database models, which are not part of this model.
- Row order: queries without ORDER BY return rows in ascending id order in this model. The
  source leaves that order to the database.
- Frontend pages and dashboard statistics: they are presentation only.
