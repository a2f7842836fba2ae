/**
 * The object-level ownership checks. Each looks up the requester's user
 * or account first, failing as not found when it does not exist, and then
 * compares it with the owner of the object.
 */
module Permissions {
  import opened Wrappers
  import opened Models
  import opened Views

  /** `IsOwner.has_object_permission`: the object's owner is the requesting user, who must exist. */
  function IsOwner(users: set<UserId>, user: UserId, objectOwner: UserId): (r: Result<bool, ApiError>)
    ensures r.Err? <==> user !in users
    ensures r.Ok? ==> (r.value <==> objectOwner == user)
  {
    if user in users then Ok(objectOwner == user) else Err(NotFound)
  }

  /** `AccountPermission.has_object_permission`: the object belongs to the account the requester owns. */
  function AccountPermission(owners: map<UserId, AccountId>, user: UserId, objectAccount: AccountId)
    : (r: Result<bool, ApiError>)
    ensures r.Err? <==> user !in owners
    ensures r.Ok? ==> (r.value <==> objectAccount == owners[user])
  {
    match AccountOf(owners, user)
    case Err(err) => Err(err)
    case Ok(account) => Ok(objectAccount == account)
  }

  /** `PaymentPermission.has_object_permission`: the payment's expense belongs to the requester's account. */
  function PaymentPermission(owners: map<UserId, AccountId>, user: UserId, payment: Payment, expense: Expense)
    : (r: Result<bool, ApiError>)
    requires payment.expense == expense.id
    ensures r.Err? <==> user !in owners
    ensures r.Ok? ==> (r.value <==> expense.account == owners[user])
  {
    match AccountOf(owners, user)
    case Err(err) => Err(err)
    case Ok(account) => Ok(expense.account == account)
  }

  /** Every expense the listing shows the requester passes the account check for that requester. */
  lemma ListedExpensesArePermitted(owners: map<UserId, AccountId>, expenses: seq<Expense>, user: UserId, e: Expense)
    requires ListExpenses(owners, expenses, user).Ok?
    requires e in ListExpenses(owners, expenses, user).value
    ensures AccountPermission(owners, user, e.account) == Ok(true)
  {
  }

  /**
   * When accounts have one owner each, a requester is granted an expense or
   * one of its payments only when it is the owner of the expense's account.
   */
  lemma PermissionMeansOwnership(owners: map<UserId, AccountId>, user: UserId, owner: UserId,
                                 payment: Payment, expense: Expense)
    requires forall u, v :: u in owners && v in owners && owners[u] == owners[v] ==> u == v
    requires owner in owners && owners[owner] == expense.account
    requires payment.expense == expense.id
    ensures AccountPermission(owners, user, expense.account) == Ok(true) <==> user == owner
    ensures PaymentPermission(owners, user, payment, expense) == AccountPermission(owners, user, expense.account)
  {
  }
}
