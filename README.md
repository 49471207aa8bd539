# mOdoo core, modelled in Dafny

mOdoo is a small Django ERP whose business modules (product, point of sale,
HR, accounting) can be installed, uninstalled and upgraded at run time. This
project models the parts of it that keep state consistent:

- **Sales ledger** (`product_rules.dfy`, `product_services.dfy`). This is the
  `TransactionService` of the product module. Creating a sale takes each
  accepted line's quantity from stock, totals the sale in whole rupiah,
  computes the due date from the payment term, and writes a receivable.
  Editing a sale reconciles the stock between the old and new lines.
  Deleting a sale gives its quantities back. Changing a sale's status flips
  paid/unpaid and mirrors the change into its receivable.
  `CategoryService.delete_category` refuses to delete a category that is in
  use.
- **Point of sale** (`pos_models.dfy`, `pos_services.dfy`). Transaction
  numbers are `POS-YYYYMMDD-NNNN`. Totals are recomputed from the saved
  lines. `process_payment` checks the stock line by line, then deducts it
  and completes the transaction. Only an open transaction can be cancelled.
- **Rupiah formatting** (`decimal.dfy`, `rupiah.dfy`). This is
  `format_rupiah`: the integer part is grouped by `.`, followed by `,` and
  exactly two decimals.
- **Module lifecycle**:
  - `registry.dfy` is the Module table.
  - `engine_views.dfy` and `core_views.dfy` are the install, uninstall and
    upgrade views.
  - `updater.dfy` is the run-time updater.
  - `urls.dfy` is the dynamic URL configuration, whose route list is derived
    from the installed modules.
- **Employees** (`hr_services.dfy`). This is the HR `EmployeeService`:
  required fields, at most one employee per user, updates that change only
  the fields they are given, and not-found errors.

Modelling conventions:

- **Database tables** are fields of one object per service: `Ledger`,
  `PosDb`, `ModuleTable`, `EmployeeTable`.
- **Methods** change those fields with loops that follow the source. Each is
  proved against a pure function (`Sell`, `Reconcile`, `Restore`, `Deduct`,
  `Registered`, `DynamicPatterns`, `Create`/`Update`/`Delete`, …).
- **Lemmas about those functions** state what the services promise.
- **Money** is integer cents.
- **Times** are whole minutes, **dates** are day numbers, and "now" and
  "today" are parameters.
- **External outcomes** are inputs:
  - whether a migration succeeds;
  - whether an import raises;
  - whether the accounting tables answer;
  - whether a hire date parses.

Behaviours of the source that the proofs make explicit:

- **Duplicate product names in an edit.** `update_transaction` keys lines by
  product name, and the last line of a name wins. Stock is conserved only
  when every product appears on at most one line
  (`ProductRules.EditConserves`). With a product on two lines, the edit
  takes stock the sale does not hold
  (`ProductRules.DuplicateNamesBreakConservation`).
- **Two lines of one product in a payment.** `process_payment` checks each
  line against the stock separately. Two lines of one product can therefore
  drive the stock below zero (`PosServices.PerLineCheckCanOverdraw`).
- **Transaction number length.** Transaction numbers fit their 20-character
  column only while fewer than 10^7 transactions are dated the same day
  (`PosModels.TransactionNumberFits`).
- **Fallback URL patterns.** When the database branch fails part-way,
  `get_dynamic_urlpatterns` keeps the routes it already appended and adds
  the package scan's routes after them.

## Model

| member | source | states |
|---|---|---|
| Rupiah.FormatRupiah | engine/utils.py:12-15 | exactly the amounts `float()` rejects raise the ValueError |
| Rupiah.FormatIsRendered | engine/utils.py:17-26 | a numeric amount renders as its absolute value: integer part grouped in threes by '.', then ',' and the two-digit cents |
| Rupiah.SignDiscarded | engine/utils.py:17-26 | both branches return the same text, so -x and x format alike |
| Rupiah.SwapGroups | engine/utils.py:21 | the three-step replace chain turns Python's ',' grouping into '.' grouping and leaves digits alone |
| Rupiah.GroupsWellFormed | engine/utils.py:21 | the grouped integer part is a 1-3 digit group followed by '.'-separated groups of exactly three, with no ',' |
| Rupiah.TwoDecimals | engine/utils.py:21 | the `.2f` decimals are always exactly two digits denoting the cents |
| Rupiah.FormatShape | engine/utils.py:21 | the formatted text is a well-grouped integer part, a single ',', and two digits |
| Rupiah.RoundTrip | engine/utils.py:3-26 | deleting the dots and turning ',' back into '.' gives a plain rendering that reads back as the absolute amount in cents |
| Rupiah.UnformatGroups | engine/utils.py:21 | removing the grouping dots recovers the digit string |
| Decimal.ValueOfDigits | modules/pos/models.py:57 | the decimal rendering of a count reads back as that count |
| Decimal.WidthBound | modules/pos/models.py:57 | a number has at most k digits exactly when it is below 10^k |
| Decimal.ValueOfZeroPad | modules/pos/models.py:57 | zero-padding to a width keeps the denoted value |
| Decimal.PaddedDigitsInjective | modules/pos/models.py:57 | distinct counts give distinct zero-padded renderings at any width |
| PosModels.DateStampFields | modules/pos/models.py:51-52 | the %Y%m%d stamp is eight digits whose three fields denote the year, month and day |
| PosModels.TransactionNumberLength | modules/pos/models.py:57 | the number is "POS-", eight date digits, '-', and the count padded to at least four digits |
| PosModels.TransactionNumberFits | modules/pos/models.py:14-57 | counts up to 9999 give 17 characters; the 20-character column holds the number exactly while the count is below 10^7 |
| PosModels.TransactionNumberInjective | modules/pos/models.py:49-57 | a transaction number determines its date and its count |
| PosModels.PosItem.Save | modules/pos/models.py:74-76 | saving a line recomputes its subtotal as unit price times quantity, whatever it held |
| PosModels.SavedSubtotals | modules/pos/models.py:45-76 | once every line is saved, the sum of stored subtotals is the lines' worth |
| PosModels.PosTransaction.constructor | modules/pos/models.py:14-35 | a new transaction has the column defaults: zero amounts, 'cash', not completed, no journal id |
| PosModels.PosTransaction.CalculateTotals | modules/pos/models.py:43-47 | subtotal is the sum of the lines' subtotals; grand total is subtotal minus discount plus tax |
| PosModels.PosTransaction.GenerateTransactionNumber | modules/pos/models.py:49-57 | the number is built from today's date and today's count plus one |
| PosServices.DeductPerProduct | modules/pos/services.py:218-223 | each product's stock drops by exactly the total quantity its lines take; other products keep theirs |
| PosServices.PerLineCheckCanOverdraw | modules/pos/services.py:202-223 | two lines of 3 against a stock of 5 both pass the per-line check, and the stock ends at -1 |
| PosServices.BuiltWorth | modules/pos/services.py:134-147 | lines saved from the requests have subtotals summing to what the requests are worth |
| PosServices.AddLines | modules/pos/services.py:134-144 | one fresh saved line per requested item, in request order |
| PosServices.CheckStock | modules/pos/services.py:202-216 | the check passes exactly when every line's product exists and on its own holds the line's quantity |
| PosServices.DeductStock | modules/pos/services.py:218-223 | the stock afterwards is `Deduct` of the stock and the lines |
| PosServices.NewTransaction | modules/pos/services.py:126-147 | the new transaction has the customer, today's number, one built line per request, and the totals of those lines |
| PosServices.AddItems | modules/pos/services.py:134-147 | the lines are built and the totals recomputed from them; nothing else changes |
| PosServices.ApplyAmounts | modules/pos/services.py:181-189 | the request's discount, tax, method and cash are stored and the totals recomputed; the lines are untouched |
| PosServices.Complete | modules/pos/services.py:198-231 | the journal reference, the change and the completed flag are set; nothing else changes |
| PosServices.Applied | modules/pos/services.py:181-189 | after applying a payment the grand total is subtotal minus discount plus tax |
| PosServices.PosDb.CreateTransaction | modules/pos/services.py:122-159 | a taken number rolls everything back with 500; otherwise a new transaction under the next id holds the requested lines and totals; the stock is never touched |
| PosServices.PosDb.ProcessPayment | modules/pos/services.py:161-247 | a missing id is 400, an unknown one 404, a completed one 400, all untouched; an open one is paid as `PaymentOutcome` says; no other transaction changes |
| PosServices.PosDb.Pay | modules/pos/services.py:181-242 | short cash or a short line leaves the stock and an open transaction with the amounts applied; otherwise the stock is deducted and the transaction completed with its change |
| PosServices.PosDb.CancelTransaction | modules/pos/services.py:321-346 | a missing id is 400, an unknown one 404, a completed one 400; only an open transaction is removed, and the stock never changes |
| PosServices.PosDb.ProcessPost | modules/pos/services.py:26-37 | create_transaction, process_payment and cancel_transaction each have exactly the outcome of their operation (`Created`, `Paid`, `Cancelled`), with that operation's reply; an unknown action is 400 and changes nothing |
| PosServices.CashChangeNonNegative | modules/pos/services.py:191-200 | a completed cash payment is marked completed and records change equal to cash received minus grand total, which is never negative |
| ProductRules.Find | modules/product/services.py:973 | the position of the first separator, with none before it |
| ProductRules.SplitJoin | modules/product/services.py:973 | splitting on '-' loses nothing: the pieces joined back give the term, and no piece holds a '-' |
| ProductRules.SplitAfter | modules/product/services.py:973 | a separator after separator-free text ends the first piece there |
| ProductRules.TermOf | modules/product/services.py:957-963 | 'cash' and 'CASH' select the cash term and a paid sale; any other term is used by name and leaves the sale unpaid |
| ProductRules.DaysWord | modules/product/services.py:973-981 | the credit period is 3, 7, 14 or the 30-day default |
| ProductRules.CreditDue | modules/product/services.py:972-984 | "credit-<word>-<rest>" is due the named number of days from now |
| ProductRules.DefaultTermDue | modules/product/services.py:938-984 | the default "credit-three-day" term is due in three days |
| ProductRules.BareCreditFails | modules/product/services.py:972-984 | a bare "credit" has no second-to-last word and raises IndexError |
| ProductRules.OneWordCredit | modules/product/services.py:972-984 | "credit-x" takes "credit" as the second-to-last word and gets 30 days |
| ProductRules.CashDueNow | modules/product/services.py:958-988 | cash is due now; a term that is neither cash nor credit leaves the due date unset |
| ProductRules.WholeUnits | modules/product/services.py:1023 | `int(price)` truncates the price toward zero to whole rupiah |
| ProductRules.SellStep | modules/product/services.py:995-1031 | one line of the acceptance loop keeps the set of products unchanged |
| ProductRules.StoppedSelling | modules/product/services.py:995-1001 | once `int()` has raised, the remaining lines are not looked at |
| ProductRules.SellAccounts | modules/product/services.py:993-1031 | every product's final stock plus what the accepted lines took is its initial stock; each accepted line took a positive quantity at the product's price; the total is what the accepted lines are worth |
| ProductRules.StepCases | modules/product/services.py:1000-1031 | one line is either refused, leaving stock, lines and total alone, or accepted with a positive quantity of a stocked product at its price, taking that much stock and adding its worth |
| ProductRules.SellConserves | modules/product/services.py:993-1031 | a product's final stock plus what the accepted lines took of it is its initial stock |
| ProductRules.SellLines | modules/product/services.py:1008-1020 | each accepted line sells a positive quantity of a stocked product at that product's price |
| ProductRules.SellUnits | modules/product/services.py:1022-1023 | the total is what the accepted lines are worth in whole units |
| ProductRules.SellKeepsStockNonNegative | modules/product/services.py:1001-1018 | stock that starts non-negative never goes below zero by selling |
| ProductRules.StepEffect | modules/product/services.py:995-1031 | a missing product or an unavailable quantity fails that line with stock unchanged; an available one lowers exactly that product's stock |
| ProductRules.RestoreEffect | modules/product/services.py:1307-1316 | deleting gives back to each product exactly the quantity its lines held |
| ProductRules.SellThenRestore | modules/product/services.py:1307-1316 | deleting a sale right after creating it restores the original stock |
| ProductRules.IndexOf | modules/product/services.py:1155 | the entry of a name is found exactly when the dictionary has the name |
| ProductRules.PutFacts | modules/product/services.py:1146-1151 | a dictionary store keeps the keys unique, adds the key, and overrides only that key's value |
| ProductRules.ToDictFacts | modules/product/services.py:1130-1151 | the per-name dictionary has one entry for each name on a line, holding the quantity of that name's last line |
| ProductRules.LastIsAll | modules/product/services.py:1130-1151 | with one line per name, the last line's quantity is all the sale holds of that name |
| ProductRules.AdjustAllEffect | modules/product/services.py:1153-1181 | when it completes, the first loop moves each product's stock by its old minus its new quantity |
| ProductRules.ReturnAllEffect | modules/product/services.py:1183-1193 | when it completes, the second loop gives back to each product its old quantity if the edit drops the name |
| ProductRules.FailureSticks | modules/product/services.py:1166-1193 | after a refusal, neither loop changes anything more |
| ProductRules.AdjustStopped | modules/product/services.py:1154-1181 | once the first loop refuses an entry, the remaining entries change nothing |
| ProductRules.ReturnStopped | modules/product/services.py:1184-1193 | once the second loop meets a missing product, the remaining entries change nothing |
| ProductRules.ReconcileEffect | modules/product/services.py:1153-1193 | a reconciliation that gets through both loops leaves each product at its stock plus old quantity minus new quantity |
| ProductRules.EditConserves | modules/product/services.py:1129-1193 | with distinct names, stock plus what the sale holds is the same before and after an edit |
| ProductRules.DuplicateNamesBreakConservation | modules/product/services.py:1130-1181 | with a product on two lines, only the last line's quantity is reconciled, so an edit keeping 5 units takes 2 more from stock |
| ProductRules.ReturnStays | modules/product/services.py:1183-1193 | old names that the edit keeps are skipped by the second loop |
| ProductServices.StatusWord | modules/product/services.py:1136-1141 | the status is 'lunas' exactly for the truthy inputs 'true', 'True', True, 1 and '1', else 'belum_lunas' |
| ProductServices.Ledger.constructor | modules/product/services.py:934-1112 | an empty ledger over the given stock, prices and term names |
| ProductServices.Ledger.DeleteCategory | modules/product/services.py:141-166 | a missing or zero id is 400, an unknown one 404, a used one 400; only an unused category is removed, and no product is left pointing at a deleted category |
| ProductServices.Ledger.SellItems | modules/product/services.py:993-1031 | the loop leaves exactly the stock, lines, failures, total and abort flag of `Sell` |
| ProductServices.Ledger.CreateSale | modules/product/services.py:934-1112 | no schedule is 500, no lines 400, an unknown term or an IndexError 500; an admitted request stores and totals the sale as `SaleAttempted` says, and the reply is Ok exactly when int() never raised, the whole-rupiah total of the accepted lines is non-zero, the schedule is due and accounting answers |
| ProductServices.Ledger.RecordSale | modules/product/services.py:993-1076 | stock is the stock after `Sell`; an aborted, empty or future sale is removed or left as saved; an accepted one holds its lines and total in whole rupiah |
| ProductServices.Ledger.SettleSale | modules/product/services.py:1033-1076 | a zero total or a missing accounting module removes the saved sale; a future schedule leaves it with total 0; otherwise it gets its total and schedule, and a receivable when the accounting rows exist |
| ProductServices.Ledger.KeyByName | modules/product/services.py:1130-1151 | the dictionary built is `ToDict` of the lines |
| ProductServices.Ledger.AdjustStock | modules/product/services.py:1153-1181 | the loop leaves the stock and outcome of `AdjustAll`, stopping at the first refusal |
| ProductServices.Ledger.ReturnStock | modules/product/services.py:1183-1193 | the loop leaves the stock and outcome of `ReturnAll`, stopping at a missing product |
| ProductServices.Ledger.UpdateSale | modules/product/services.py:1115-1236 | a missing id is 400 and an unknown one 404, untouched; otherwise stock is `Reconcile` of the old and new lines, and the sale is edited only when reconciliation succeeds |
| ProductServices.Ledger.RestoreStock | modules/product/services.py:1307-1316 | the loop leaves the stock of `Restore` |
| ProductServices.Ledger.DeleteSale | modules/product/services.py:1294-1327 | a missing id is 400 and an unknown one 404, untouched; otherwise the sale goes and its quantities return to stock |
| ProductServices.Ledger.ChangeStatus | modules/product/services.py:577-638 | an unknown sale is 500; otherwise paid flips with today's paid date and is mirrored into the receivable, which is created for the sale's total when missing; when that creation fails the paid flag is restored and the paid date is set to None |
| ModuleRegistry.PackagesListed | engine/views.py:36-39 | a name is listed exactly when some directory entry of that name is a package |
| ModuleRegistry.RegisteredRows | engine/views.py:37-41 | registering keeps one row per name, and afterwards exactly the old names and the listed names have rows |
| ModuleRegistry.RegisteredExtends | engine/views.py:37-41 | existing rows keep their places; new rows come after them |
| ModuleRegistry.RegisterIdempotent | engine/views.py:33-42 | listing the modules a second time adds no rows |
| ModuleRegistry.AlreadyRegistered | engine/views.py:37-41 | names that all have rows add none |
| ModuleRegistry.RegisteredSnoc | engine/views.py:37-41 | registering one more name is registering it after the others |
| ModuleRegistry.InstalledNames | mOdoo/urls.py:26-27 | only installed modules with rows are selected |
| ModuleRegistry.InstalledNamesComplete | mOdoo/urls.py:26-27 | every installed module is selected |
| ModuleRegistry.InstalledNamesUnique | mOdoo/urls.py:26-27 | no module is selected twice |
| ModuleRegistry.ModuleTable.GetOrCreate | engine/views.py:40 | a new name gets an uninstalled row at the end; an existing name keeps its row |
| ModuleRegistry.ModuleTable.RegisterPackages | engine/views.py:36-41 | every package gets a row, in directory order; existing flags are unchanged and new rows are uninstalled |
| ModuleRegistry.ModuleTable.SetInstalled | engine/views.py:51-52 | only that module's flag changes |
| EngineViews.ModuleList | engine/views.py:33-42 | the page lists the packages in directory order; rows are registered and no existing flag changes |
| EngineViews.Install | engine/views.py:44-58 | login, 404, then: an uninstalled module is installed only when the migrations succeed; an installed one is left alone with a warning |
| EngineViews.Uninstall | engine/views.py:60-69 | login, 404, then: an installed module is uninstalled; an uninstalled one gets a warning |
| EngineViews.Upgrade | engine/views.py:71-83 | login, 404, then: migrations run only for an installed module, and no flag changes |
| CoreViews.ModuleList | core/views.py:12-22 | behind the login, as the engine view |
| CoreViews.Install | core/views.py:24-39 | as the engine view, and the URL caches are cleared exactly on a successful install |
| CoreViews.Uninstall | core/views.py:41-51 | as the engine view, and the URL caches are cleared exactly on a successful uninstall |
| Urls.CollectRoutes | mOdoo/urls.py:27-43 | every collected route is the route of a listed module whose urls import; with no other error, each such module gets its route |
| Urls.ModuleRouteInjective | mOdoo/urls.py:29 | distinct modules get distinct routes |
| Urls.InstalledRoutes | mOdoo/urls.py:15-31 | with the table readable, the list is the admin and engine routes, then a route exactly for each installed module whose urls import |
| Urls.BaseFirst | mOdoo/urls.py:18-21 | every list starts with the admin and engine routes |
| Urls.StopAtRaise | mOdoo/urls.py:37-43 | an include() raising other than ImportError ends the loop |
| Urls.UrlConf.AppendRoutes | mOdoo/urls.py:27-43 | the loop appends `Collect` of the names and reports whether it raised |
| Urls.UrlConf.GetDynamicUrlpatterns | mOdoo/urls.py:15-46 | the result is `DynamicPatterns`; a returned list is remembered |
| Urls.UrlConf.UpdateUrlpatterns | mOdoo/urls.py:48-57 | the fresh list becomes both the remembered list and the resolver's; when computing it raises, the resolver keeps its patterns |
| Updater.SurvivingMembers | modules/updater.py:18-44 | reload_file reports exactly the candidate paths that do not raise |
| Updater.Runtime.ReloadFile | modules/updater.py:15-44 | the six candidates are tried in order; those that do not raise are reported and end up in sys.modules |
| Updater.Runtime.ReloadAppConfig | modules/updater.py:105-120 | True exactly when the apps module was imported and reloads |
| Updater.Runtime.ReloadUrlPatterns | modules/updater.py:46-61 | True exactly when the list is computed; the resolver then holds it, otherwise it is unchanged |
| Updater.Runtime.InstallModule | modules/updater.py:122-152 | an unknown module is False and untouched; otherwise it is flagged installed, its files reloaded, the routes refreshed, and the reply is the migrations' outcome |
| Updater.Runtime.UninstallModule | modules/updater.py:154-176 | False exactly for an unknown module; otherwise the flag is cleared and the routes refreshed |
| Updater.Runtime.UpgradeModule | modules/updater.py:178-206 | an unknown or uninstalled module is False and untouched; an installed one is reloaded and migrated with its flag unchanged |
| Updater.Runtime.ReloadAllModules | modules/updater.py:208-224 | with the table unreadable, False and untouched; otherwise every installed module's surviving files are loaded and the routes refreshed |
| Updater.InstallRoutes | modules/updater.py:122-176 | after an install the module has its route; after an uninstall it has none beyond the base routes |
| HrServices.Create | modules/hr/services.py:65-115 | a refused create changes nothing |
| HrServices.CreateAccepted | modules/hr/services.py:65-115 | a create is accepted exactly when the three fields are given, the user exists and has no employee, and the date parses; the user then has exactly one row, the new one |
| HrServices.CreateRefusals | modules/hr/services.py:72-113 | missing fields are 400 before the user lookup; an unknown user is 404; an employed user is refused |
| HrServices.DispatchConsistent | modules/hr/services.py:21-182 | every POST action keeps at most one employee per user, each row's user existing |
| HrServices.Update | modules/hr/services.py:117-162 | a refused update changes nothing |
| HrServices.UpdateOnlyProvided | modules/hr/services.py:130-137 | an accepted update changes only the named row and only the fields it was given; the row keeps its user |
| HrServices.UpdateIdempotent | modules/hr/services.py:117-162 | sending the same update twice gives the table of sending it once |
| HrServices.Delete | modules/hr/services.py:164-182 | a refused delete changes nothing |
| HrServices.DeleteExactlyOne | modules/hr/services.py:164-182 | a delete succeeds exactly for a known id, and removes that row and no other |
| HrServices.CreateThenDelete | modules/hr/services.py:65-182 | deleting the employee just created restores the table, apart from the key counter |
| HrServices.EmployeeTable.constructor | modules/hr/services.py:65-115 | an empty employee table over the given users |
| HrServices.EmployeeTable.CreateEmployee | modules/hr/services.py:65-115 | the reply and new table are those of `Create`, and the table stays consistent |
| HrServices.EmployeeTable.UpdateEmployee | modules/hr/services.py:117-162 | the reply and new table are those of `Update`, and the table stays consistent |
| HrServices.EmployeeTable.DeleteEmployee | modules/hr/services.py:164-182 | the reply and new table are those of `Delete`, and the table stays consistent |
| HrServices.EmployeeTable.ProcessPost | modules/hr/services.py:21-35 | listing changes nothing; create, update and delete go to their operations; an unknown action is 400 and changes nothing |

## Left out

- **Floating point.** `format_rupiah` converts to `float` and `.2f`
  rounds. The Decimal columns are modelled as exact integer cents, so
  neither binary rounding nor the 15-digit column limits are modelled.
  `float()` also accepts "inf" and "nan", which `format_rupiah` renders
  as "inf" and "nan"; `Amount` has no such values, so those renderings
  are not modelled.
- **Payment amounts.** process_payment stores the discount, tax and cash
  amounts as the JSON decodes them (modules/pos/services.py:182-186).
  The model's `Payment` holds integer cents, that is, amounts that arrive
  as JSON integers. An amount sent with a decimal point arrives as a
  float; Decimal minus float then raises TypeError in calculate_totals
  or in the change computation, and the request ends in 500 with the
  atomic block rolled back (services.py:246-247). That failure is not
  modelled: the model completes such a payment.
- **Timezones.** Dates and times are plain numbers, with no timezone
  conversion; "now" and "today" are parameters.
- **Request parsing and responses.** The JSON decoding of request bodies,
  the response payloads, the receipt data (`generate_receipt_data`) and the
  flash messages' text are not modelled. Only the reply status and the
  stored state are.
- **Listing and read-only endpoints are not modelled.** These are:
  - `list_employees`, `list_transaction`, `get_transaction`,
    `get_products`;
  - the chart and daily-total queries;
  - the `process_get` dispatchers.
- **Old create path.** `TransactionService.create_transaction` (the v1
  path, superseded by `create_transaction_v2`) is not modelled.
- **Accounting journal.** The journal entry written by
  `create_accounting_journal` is one input: whether it could be written.
  Its lines and batch numbering are not modelled. The same holds for the
  accounting rows that `create_transaction_v2` and
  `change_status_transaction` look up: they are modelled only as whether
  they are available.
- **Supabase upload.** The upload of product images is not modelled.
- **Validation and choices.**
  - `full_clean` is modelled only for the hire date, as a given parse
    result.
  - Choice fields (payment method, status) are not checked.
- **Framework calls are outcomes.**
  - `call_command('makemigrations' / 'migrate', 'modules.<name>')` is
    modelled as an outcome. The commands are given a dotted path rather than
    an app label.
  - So are `importlib.reload` / `import_module`, `include()` and
    `clear_url_caches`.
  - `core/views.py` imports `clear_url_caches` from
    `django.core.urlresolvers`, a module current Django no longer has. The
    model assumes that import works.
- **Template caches.** `reload_templates` and `reload_module_templates`
  clear the template loaders' caches, which have no state in this model.
- **Missing model fields.**
  - The product module's models file declares no stock quantity, no
    Transaction, TransactionItem or PaymentTerm. The model follows the
    services:
    stock, prices and categories keyed by product name, sales with lines,
    and the set of term names.
  - Products are identified by name throughout. create_transaction_v2
    looks a product up by id (modules/product/services.py:996-1000); the
    model identifies that id with the product's name. The edit and delete
    paths look products up by name (1161, 1188, 1310), assuming names are
    unique as the source's own comment says (1160). Django's
    `MultipleObjectsReturned` for a duplicated name is not modelled.
  - The accounting receivable model has no `reference_id`. Receivables are
    keyed by the sale they mirror, as the services intend.
- **Employee.position.** `Employee.position` is declared as a foreign key
  to `MasterPosition`, but the service assigns it the request's text.
  Position is modelled as text. The error Django would raise on assigning a
  string to the foreign key is not modelled. Neither are the employee's
  first and last names, which the service never sets.
- **Deleting users.** Deleting an auth user, which cascades to employees,
  is not part of the service and is not modelled.
- **Non-numeric quantities in an edit.** `update_transaction` converts
  quantities with `int()` inside the reconciliation. Non-numeric quantities
  there are not modelled: edit lines carry integers.
- **Payment status rows.** The PaymentStatus rows that sales refer to are
  assumed to exist.
- **Concurrency.** Concurrent requests and the database's own locking are
  not modelled. Each operation runs alone; an atomic block's rollback is
  modelled where the source relies on it.
- **Updater module loading.** `Updater.Runtime.ReloadFile` does not
  distinguish a reload from a first import. Both leave the path in
  `sys.modules`.
