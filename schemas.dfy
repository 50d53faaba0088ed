/** Record shapes of the expense workflow: the request payloads a client may send
    (CategoryCreate, ExpenseCreate, ExpenseUpdate), the stored rows they become
    (Category, Expense, Approval) and the caller record the workflow consults. */
module Schemas {

  datatype Option<+T> = None | Some(value: T) {
    function GetOr(default: T): T {
      if Some? then value else default
    }
  }

  /** One field of a partial-update payload: either left out of the request or sent
      with a value. Only the sent fields take part in an update. */
  datatype Field<+T> = Unset | Set(value: T) {
    function Or(current: T): T {
      if Set? then value else current
    }
  }

  /** An instant; the workflow only stores instants and never computes with them. */
  type Time = int

  /** A monetary amount in minor units (cents). */
  type Amount = int

  /** The status strings the workflow writes. Expenses and approvals share the
      strings "approved" and "rejected"; each record kind uses a subset. */
  datatype Status = Draft | Submitted | Pending | Approved | Rejected {
    /** The string stored in the status column and matched by the list filter. */
    function Name(): (s: string)
      ensures |s| > 0
    {
      match this
      case Draft => "draft"
      case Submitted => "submitted"
      case Pending => "pending"
      case Approved => "approved"
      case Rejected => "rejected"
    }

    predicate Decided() {
      this == Approved || this == Rejected
    }
  }

  type ExpenseStatus = s: Status | s != Pending witness Draft
  type ApprovalStatus = s: Status | s == Pending || s.Decided() witness Pending

  /** Reads a status column back: the inverse of Status.Name. */
  function ParseStatus(s: string): (r: Option<Status>)
    ensures r.Some? ==> r.value.Name() == s
  {
    if s == "draft" then Some(Draft)
    else if s == "submitted" then Some(Submitted)
    else if s == "pending" then Some(Pending)
    else if s == "approved" then Some(Approved)
    else if s == "rejected" then Some(Rejected)
    else None
  }

  lemma ParseName(s: Status)
    ensures ParseStatus(s.Name()) == Some(s)
  {
  }

  /** A distinct status has a distinct name, so filtering by name is filtering by status. */
  lemma NameInjective(s: Status, t: Status)
    ensures s.Name() == t.Name() <==> s == t
  {
    ParseName(s);
    ParseName(t);
  }

  // ---------------------------------------------------------------------------
  // Request payloads

  /** The payload of category creation: a name and an optional description. */
  datatype CategoryCreate = CategoryCreate(name: string, description: Option<string> := None)

  /** The payload of expense creation. The owner and the status are not part of it. */
  datatype ExpenseCreate = ExpenseCreate(
    amount: Amount,
    currency: string := "USD",
    description: string,
    expenseDate: Time,
    categoryId: int,
    projectCode: Option<string> := None,
    businessPurpose: Option<string> := None)

  /** The payload of a partial update. Only business fields appear; the nullable ones
      may be sent as null (Set(None)) to clear them. */
  datatype ExpenseUpdate = ExpenseUpdate(
    amount: Field<Amount> := Unset,
    description: Field<string> := Unset,
    expenseDate: Field<Time> := Unset,
    categoryId: Field<int> := Unset,
    projectCode: Field<Option<string>> := Unset,
    businessPurpose: Field<Option<string>> := Unset)

  /** A single (field, value) entry of an update payload's sent fields. */
  datatype FieldValue =
    | AmountValue(Amount)
    | DescriptionValue(string)
    | ExpenseDateValue(Time)
    | CategoryIdValue(int)
    | ProjectCodeValue(Option<string>)
    | BusinessPurposeValue(Option<string>)

  /** Whether `u` sends the field and value of entry `f`. */
  predicate Sends(u: ExpenseUpdate, f: FieldValue) {
    match f
    case AmountValue(x) => u.amount == Set(x)
    case DescriptionValue(x) => u.description == Set(x)
    case ExpenseDateValue(x) => u.expenseDate == Set(x)
    case CategoryIdValue(x) => u.categoryId == Set(x)
    case ProjectCodeValue(x) => u.projectCode == Set(x)
    case BusinessPurposeValue(x) => u.businessPurpose == Set(x)
  }

  /** The sent fields of an update payload, in declaration order. */
  function SentFields(u: ExpenseUpdate): (fs: seq<FieldValue>)
    ensures |fs| <= 6
    ensures forall f :: f in fs <==> Sends(u, f)
  {
    (if u.amount.Set? then [AmountValue(u.amount.value)] else [])
    + (if u.description.Set? then [DescriptionValue(u.description.value)] else [])
    + (if u.expenseDate.Set? then [ExpenseDateValue(u.expenseDate.value)] else [])
    + (if u.categoryId.Set? then [CategoryIdValue(u.categoryId.value)] else [])
    + (if u.projectCode.Set? then [ProjectCodeValue(u.projectCode.value)] else [])
    + (if u.businessPurpose.Set? then [BusinessPurposeValue(u.businessPurpose.value)] else [])
  }

  // ---------------------------------------------------------------------------
  // Stored records and the caller

  datatype Category = Category(
    id: int,
    name: string,
    description: Option<string>,
    isActive: bool,
    createdAt: Time)

  datatype Expense = Expense(
    id: int,
    employeeId: int,
    amount: Amount,
    currency: string,
    description: string,
    expenseDate: Time,
    categoryId: int,
    projectCode: Option<string>,
    businessPurpose: Option<string>,
    status: ExpenseStatus,
    submittedAt: Option<Time>,
    approvedAt: Option<Time>,
    rejectedAt: Option<Time>,
    rejectionReason: Option<string>,
    createdAt: Time,
    updatedAt: Time)

  /** An approval decision: its status and comments, linked to one expense and one approver. */
  datatype Approval = Approval(
    id: int,
    expenseId: int,
    approverId: int,
    status: ApprovalStatus,
    comments: Option<string>,
    approvedAt: Option<Time>)

  /** An expense together with the approvals that reference it. */
  datatype ExpenseWithApprovals = ExpenseWithApprovals(expense: Expense, approvals: seq<Approval>)

  /** The authenticated caller, reduced to what the workflow reads of it. */
  datatype User = User(id: int, isAdmin: bool, managerId: Option<int>)

  /** The client-supplied part of a stored expense: the payload it was created from. */
  function PayloadOf(e: Expense): ExpenseCreate {
    ExpenseCreate(e.amount, e.currency, e.description, e.expenseDate, e.categoryId,
                  e.projectCode, e.businessPurpose)
  }

  /** The part of an expense that only the workflow writes: identity, owner, status, timestamps. */
  function WorkflowPart(e: Expense): Expense {
    e.(amount := 0, currency := "", description := "", expenseDate := 0, categoryId := 0,
       projectCode := None, businessPurpose := None)
  }

  /** An expense is its payload plus its workflow part: the two projections lose nothing. */
  lemma SplitExpense(e: Expense, f: Expense)
    requires PayloadOf(e) == PayloadOf(f) && WorkflowPart(e) == WorkflowPart(f)
    ensures e == f
  {
  }

  /** The fields a client may leave out of an expense payload default to US dollars
      and to no project code and no business purpose. */
  lemma ExpenseCreateDefaults(amount: Amount, description: string, date: Time, categoryId: int)
    ensures var p := ExpenseCreate(amount := amount, description := description,
                                   expenseDate := date, categoryId := categoryId);
            p.currency == "USD" && p.projectCode == None && p.businessPurpose == None
  {
  }

  /** An update payload that names no field sends nothing. */
  lemma EmptyUpdateSendsNothing()
    ensures SentFields(ExpenseUpdate()) == []
  {
  }
}
