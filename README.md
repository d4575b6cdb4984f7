# Sales-transaction backend: derived amounts, request gating, accounts and routes

This project models the decision logic of a small Flask backend. Sales staff
upload spreadsheets, submit the resulting sales transactions, and finance staff
approve or reject them. Four layers are modelled:

- **Records** (`models.dfy`, module `Models`). Covers the three record types
  (Transaction, FixedCost, RecurringService) and their derived amounts: a fixed
  cost's `total`, and a recurring service's `ingreso` (revenue) and `egreso`
  (expense). It also covers the declared record rules: the unique order ID,
  the column defaults (`PENDING`, submission time, no approval date), the
  required parent of every line item, and the cascade delete from a
  Transaction to its line items. The database is a value with one map per
  table, keyed by primary key.
- **Request gating** (`utils.dfy`, module `Utils`). Covers the upload
  file-name check, the mapping from a service result to a status code, the
  two role guards (ADMIN only, and FINANCE or ADMIN), and the set of record
  categories a role may edit. The non-ADMIN branch of that set is built by a
  loop over the configuration, as in the source.
- **Accounts and session** (`auth.dfy`, module `Auth`). A class holds the
  user table as a sequence and the logged-in user as an optional position.
  Its methods are the bootstrap seeding, registration, login and logout, and
  a function answers the `me` endpoint. Password hashing is an abstract
  `Hasher`: a pair of functions that makes a credential from a password and
  checks a password against a credential.
- **Routes** (`routes.dfy`, module `Routes`). Each of the six business
  handlers is a pure function. It takes an abstract request and whether the
  service succeeded. It returns the status code, the handler's own error if
  it answered without delegating, and the service call it made, if any.

`option.dfy` (module `Opt`) holds the `Option` and `Result` types.

`app/routes.py:11-12` repeats `allowed_file` from `app/utils.py:10-11`,
character for character. The model defines it once (`Utils.AllowedFile`),
and the process-excel handler uses that definition.

Three behaviours of the code are easy to misread, and the model keeps them
as written:

- `admin_required` answers 403, not 401, to a caller who is not logged in.
  `finance_admin_required` answers 401 in that case.
- Approve and reject failures answer 500. Only the transaction-details
  failure answers 404.
- No handler in `app/routes.py` carries either role guard. The guards are
  modelled on their own.

## Model

| member | source | states |
|---|---|---|
| `Models.Total` | app/models.py:54-59 | the total is present exactly when both quantity and unit cost are, and is then their product |
| `Models.Ingreso` | app/models.py:75-80 | the revenue is present exactly when both Q and P are, and is then Q × P |
| `Models.Egreso` | app/models.py:82-88 | the expense is never missing; it is 0 whenever Q is missing, 0 when both unit costs are missing, and (CU1 + CU2) × Q when all three are present |
| `Models.MissingOperandRules` | app/models.py:75-88 | filling every missing expense operand with an explicit zero leaves the expense unchanged; the same filling turns a missing revenue into zero, so the two amounts treat missing values differently |
| `Models.EgresoSplitsByComponent` | app/models.py:85-88 | the expense is the sum of the expenses each unit-cost component gives on its own |
| `Models.NewTransaction` | app/models.py:8-35 | an unsupplied status becomes PENDING, an unsupplied submission date becomes the current time, the approval date stays unset unless supplied, and supplied values are kept |
| `Models.Insert` | app/models.py:16 | an insert fails with a unique violation exactly when the order ID is present and already used; otherwise the new row is stored under the next key and that counter advances; the other tables and their counters are unchanged, and the store invariants are kept |
| `Models.AddFixedCost` | app/models.py:43-45 | adding a fixed-cost line fails with a foreign-key violation exactly when the parent Transaction does not exist; otherwise only that line is added and only its table's counter advances, and the invariants are kept |
| `Models.AddRecurringService` | app/models.py:62-64 | adding a recurring-service line fails with a foreign-key violation exactly when the parent Transaction does not exist; otherwise only that line is added and only its table's counter advances, and the invariants are kept |
| `Models.Delete` | app/models.py:39-40 | deleting a Transaction removes it and exactly the line items that reference it; every other row and every key counter is kept unchanged, and no line item is left without a parent |
| `Models.InsertedTransactionIsPending` | app/models.py:33-35 | a Transaction inserted without status or dates is PENDING, submitted at the insert time, and has no approval date |
| `Models.DuplicateOrderIdConflicts` | app/models.py:16 | inserting a second Transaction with an order ID already inserted yields a unique violation, not a second row |
| `Models.DeleteUndoesInsert` | app/models.py:16-40 | deleting a just-inserted Transaction restores the store as it was before, apart from the used key |
| `Models.DeleteDropsLine` | app/models.py:39-45 | a fixed-cost line stored under a fresh key is among the lines its parent's deletion removes, so the remaining lines are those that remain without it |
| `Models.DeleteRemovesAddedLine` | app/models.py:39-45 | a fixed-cost line added under a Transaction disappears when the Transaction is deleted, and deletion removes the same lines it would have removed without that addition |
| `Utils.LastDot` | app/utils.py:11 | the split position is a dot with no dot after it, and it is absent exactly when the name has no dot |
| `Utils.AllowedFile` | app/utils.py:8-11 | a name without a dot is refused |
| `Utils.LastDotUnique` | app/utils.py:11 | any position holding a dot with no dot after it is where the name is split |
| `Utils.AllowedFileCharacterised` | app/utils.py:8-11 | a name is accepted exactly when it has a last dot and the lower-cased text after that dot is `xlsx` or `xls` |
| `Utils.AllowedFileByExtension` | app/utils.py:11 | for any stem and any dot-free extension, the verdict on `stem.ext` is the verdict on the lower-cased extension alone |
| `Utils.UpperCaseExtensionAccepted` | app/utils.py:8-11 | `a.b.XLSX` is accepted |
| `Utils.InnerExtensionRejected` | app/utils.py:8-11 | `a.xlsx.zip` is refused |
| `Utils.AllowedFileIgnoresCase` | app/utils.py:11 | lower-casing a file name first never changes the verdict |
| `Utils.HandleServiceResult` | app/utils.py:13-29 | a (body, status) pair is answered with its own status; a dict is answered 200 when its `success` value is truthy and with the default error status otherwise |
| `Utils.DictResultStatus` | app/utils.py:13-29 | with the default error status, a dict answers 200 exactly when `success` is truthy and 500 exactly when it is not |
| `Utils.AdminRequired` | app/utils.py:33-46 | the view runs exactly for a logged-in ADMIN; every other caller, an anonymous one included, gets 403 and the view is not called |
| `Utils.FinanceAdminRequired` | app/utils.py:49-65 | 401 exactly for an anonymous caller, 403 exactly for a logged-in role other than FINANCE and ADMIN, and the view runs exactly for FINANCE or ADMIN |
| `Utils.GuardsCompared` | app/utils.py:41-62 | whoever passes the ADMIN guard passes the FINANCE-or-ADMIN guard; they refuse an anonymous caller with 403 and 401 respectively, and otherwise refuse with the same code |
| `Utils.AdminCategories` | app/utils.py:80-82 | the ADMIN answer is exactly the set of truthy categories of the configuration: each member is truthy and is some entry's category, and every truthy entry category is a member |
| `Utils.EditableCategories` | app/utils.py:67-89 | an anonymous caller gets nothing; ADMIN gets all truthy categories; any other role gets exactly the categories of the entries whose write role is that role, missing categories included |
| `Utils.CategoriesOfOneMore` | app/utils.py:85-87 | visiting one more configuration entry adds its category exactly when its write role matches |
| `Utils.AdminCoversEveryRole` | app/utils.py:80-87 | every truthy category that some role may edit is also editable by ADMIN |
| `Utils.MissingCategoryKeptForOtherRoles` | app/utils.py:82-87 | an entry without a category contributes a missing category to its role's answer but not to ADMIN's |
| `Auth.DefaultUsers` | app/auth.py:21-28 | the seed is three users, admin/ADMIN, finance/FINANCE and salesrep/SALES, with distinct usernames and emails |
| `Auth.FindByUsername` | app/auth.py:84 | the lookup finds the first user with the given name, and finds nothing exactly when no user has that name |
| `Auth.RegistrationError` | app/auth.py:45-54 | a missing or empty field is reported first, then a taken username, then a registered email; there is no error exactly when all fields are given and both username and email are new |
| `Auth.AccountStore.CurrentPrincipal` | app/auth.py:106-111 | the session is anonymous exactly when nobody is logged in; otherwise it carries the logged-in user's name and role |
| `Auth.AccountStore.CreateDefaultUsers` | app/auth.py:12-33 | with any user present, answers 200 and changes nothing; on an empty table, stores exactly the three default users and answers 201; the session is untouched |
| `Auth.AccountStore.Register` | app/auth.py:37-70 | a registration error answers 400 for missing fields or 409 for a duplicate, and leaves table and session unchanged; otherwise exactly one SALES user is appended and logged in, and the reply is 201 with that username and role |
| `Auth.AccountStore.Login` | app/auth.py:77-95 | an unknown name or a failed password check answers 401 and leaves the session alone; otherwise the session becomes that user and the reply reports the stored name and role; the table never changes |
| `Auth.AccountStore.Logout` | app/auth.py:97-102 | answers 401 without a session and 200 with one; afterwards the session is anonymous |
| `Auth.AccountStore.Me` | app/auth.py:104-112 | answers 200 with the logged-in user's name and role exactly when there is a session, and 401 otherwise |
| `Auth.RegisterThenLogin` | app/auth.py:37-102 | starting from an empty table: register then login with the same password succeeds and reports SALES; a password the credential rejects answers 401; after logout, `me` answers 401 |
| `Auth.RegisterThenLoginInStore` | app/auth.py:37-95 | from any valid store that accepts the registration: exactly the new SALES account is appended, the same password logs it in as SALES with the session on that account, and a password its credential rejects answers 401 |
| `Auth.BootstrapThenLogin` | app/auth.py:12-95 | seeding answers 201, a second seeding answers 200, and the seeded admin can log in with the seeded password as ADMIN |
| `Routes.ProcessExcel` | app/routes.py:17-32 | a missing file part, then an empty file name, then a failed extension check each answer 400 without processing; processing happens exactly for an allowed file name, and its success answers 200 and its failure 400 |
| `Routes.SubmitTransaction` | app/routes.py:34-43 | a missing or falsy body answers 400 without saving; otherwise the body is saved, and success answers 200 and failure 500 |
| `Routes.ArgOr` | app/routes.py:47-48 | an integer argument is used as given; an absent or non-integer one yields the default |
| `Routes.ListTransactions` | app/routes.py:45-53 | the list is always requested, with page 1 and 30 per page unless given; success answers 200 and failure 500 |
| `Routes.TransactionDetails` | app/routes.py:55-61 | the details are requested for the given ID; success answers 200 and failure 404 |
| `Routes.Approve` | app/routes.py:63-69 | the approval is requested for the given ID; success answers 200 and failure 500 |
| `Routes.Reject` | app/routes.py:71-77 | the rejection is requested for the given ID; success answers 200 and failure 500 |
| `Routes.FailureStatus` | app/routes.py:17-77 | a service failure answers 404 only for transaction details, 400 only for process-excel, and 500 for the other endpoints |
| `Routes.HandlerShape` | app/routes.py:17-77 | for every endpoint, the service call does not depend on the service's outcome; a request answered without a call is answered 400, whatever the service would do; 200 means the service was called and succeeded; a failed call answers the endpoint's failure status |

## Left out

- Framework machinery is not modelled: Flask, flask_login, SQLAlchemy and
  Alembic. This covers JSON encoding, request parsing, cookies, commits, and
  the exception-to-rollback-to-500 path of registration (app/auth.py:72-74).
  A request body that is not a JSON object, or a registration field that is
  not a string, is not modelled either.
- `Auth.AccountStore.Login` takes the password as a string. A request with
  no password for an existing user makes the hashing library raise an
  exception, which is not modelled.
- The `User` class and Werkzeug's salted hashing are not part of this model.
  Hashing is the abstract `Hasher`, and the per-call random salt is folded
  into its `hash` function. The round-trip client methods assume only that
  `check` accepts the password a credential was made from.
- The store assumes the database enforces the declared UNIQUE constraint on
  `orderID` (app/models.py:16) and the foreign keys of the line items
  (app/models.py:45, 64). Whether it does depends on the engine (SQLite,
  for instance, does not check foreign keys unless told to), and the engine
  is not part of this model.
- `login_required` answers 401 for an anonymous session. That is
  flask-login's behaviour when no login view is configured. The login
  manager's configuration is not part of this model.
- The `services` module is not part of this model: Excel parsing, saving,
  pagination and the approve/reject status transitions. Each handler takes
  only whether its service succeeded. Because of that, the PENDING to
  APPROVED/REJECTED transition rules are not modelled.
- The contents of the role/category configuration are not part of this
  model. It is a parameter. The order of the list `get_editable_categories`
  returns is not modelled; the result is a set.
- `Utils.LowerChar` lower-cases only ASCII letters. Python's `str.lower`
  also maps other letters. None of them maps to `x`, `l` or `s`, so the
  extension check is unaffected.
- Floating-point columns are `real`: rounding is not modelled.
- Python's `or` default in `egreso` also replaces an explicit 0.0 by 0. The
  value is the same, so the model only defaults missing values.
- Primary keys come from a counter per table that never reuses a key. The
  database engine's actual key choice is not modelled.
- SQLAlchemy's `delete-orphan` also deletes a line item that is detached
  from its parent's collection. The model has no detach operation; such a
  deletion has the same effect as removing that line item's key.
- The migrations, the application factory, `run.py` and the Gunicorn
  configuration hold no decision logic and are not modelled. Nor is
  concurrency between worker processes.
- A `werkzeug` `FileStorage` whose file name is non-empty is truthy.
  Because of that, `Routes.ProcessExcel` does not model the `if file` test
  separately.
