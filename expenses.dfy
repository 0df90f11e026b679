/** The expense record shared by the list, budget and export components. */
module Expenses {
  import opened Strings

  /** One row of the expenses table as the components receive it. */
  datatype Expense = Expense(id: int, amount: real, category: String, date: String, title: String, createdAt: String)

  /** `expense.date || expense.created_at`: the date shown for an expense. */
  function DateOrCreated(e: Expense): String
  {
    if e.date != [] then e.date else e.createdAt
  }
}
