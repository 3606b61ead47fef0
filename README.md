# Checkout.com Magento 2 payment module: transaction, invoice and configuration core

This project models, in Dafny, the bookkeeping core of the Checkout.com
payment module for Magento 2, and proves properties of that model.

- **Recording a gateway transaction** (`Model/Service/TransactionHandlerService.php`).
  `createTransaction` points the order's payment at the gateway transaction id
  and leaves the transaction open. It builds the transaction with the flattened
  gateway response as its raw details. Depending on the transaction type it
  comments on the order, clears the parent transaction id and sets the order
  status from configuration. For a capture it may also run the invoicer. It then
  saves the payment, the transaction and the order.
  `buildDataArray` flattens the gateway response one level deep and drops `_links`.
  `getTransactions` keeps the fetched transactions of one type, in order.
- **Invoicing** (`Model/Service/InvoiceHandlerService.php`). An invoice is
  created only for an order that can be invoiced. It is prepared, asks for
  online capture, is registered and is saved. Any failing call is logged and
  null is returned. `getInvoice` loads the last invoice of the order's
  collection by its increment id.
- **Loading the configuration** (`Gateway/Config/Loader.php`). Three nested
  loops build `output[parent][group][key]` from the module's XML defaults.
  Hidden fields are skipped. Each value is read from the store scope
  configuration at `parent/group/key`, and decrypted when the field is an
  encrypted one. The list of alternative payment methods is then stored at
  `settings/checkoutcom_configuration/apm_list`. `getValue` reads one field
  directly.
- **Front-end lookups** (`view/frontend/web/js/view/payment/utilities.js`).
  `getValue` looks in the payment method's block first and in the module's
  global block second. `getUrl` builds controller URLs under `checkout_com/`.
  `getCustomerName` gives the billing name as a string or as a first/last pair.

Files:

- `base.dfy` (`Base`): option and result types, decimal strings, and PHP's
  `explode` on one separator, with its inverse and a position-based reading
  of membership.
- `php_values.dfy` (`Php`): PHP values. An array is an ordered sequence of
  entries. Assignment is last-write-wins. Nested assignment creates missing
  levels. `isset`, `unset`, truthiness and string conversion are modelled.
- `sales.dfy` (`Sales`): the order, payment, transaction and invoice objects,
  updated in place as classes. A journal records the calls whose effects lie
  outside these objects: comments, status changes, invoice steps, saves and
  log lines.
- `invoice_handler.dfy`, `transaction_handler.dfy`, `config_loader.dfy`,
  `utilities.dfy`: one per source file, in the source's own form. The services
  and the loader are classes whose methods update fields and loop as the
  source does. The JavaScript lookups are functions.

Each method is proved against a specification function, with lemmas about
that function:

- `BuildDataArray` is proved against `Flattened`.
- `LoadConfig` is proved against `LoadedConfig`.
- `GetTransactions` is proved against `OfType`.
- The journal of `CreateTransaction` is proved against `RecordTrace`.

Two methods are split into helper methods along the source's own blocks. This
keeps each proof small, and the contract of the whole is stated on the
original method:

- `createTransaction` is split into `PreparePayment`, `RecordByType` (with
  `AddAuthorization` and `AddCapture`) and `SaveAll`.
- The loops of `loadConfig` are split into `BuildTree` (parents and groups)
  and `StoreFields` (the fields of one group).

## Model

| member | source | states |
|---|---|---|
| Base.ExplodeMember | Gateway/Config/Loader.php:158-168 | a field without commas is among the pieces of `explode(',', s)` exactly when it occurs in `s` as a whole comma-delimited item (both directions) |
| Php.PutGet | Model/Service/TransactionHandlerService.php:188 | after `$a[$k] = $v`, reading `$a[$k]` gives `$v` |
| Php.PutOther | Model/Service/TransactionHandlerService.php:192 | an assignment to one key leaves every other key's value unchanged |
| Php.RemoveGet | Model/Service/TransactionHandlerService.php:182 | after `unset($a[$k])` the key is absent and every other key reads as before |
| Php.PutAllGet | Model/Service/TransactionHandlerService.php:185-194 | after a run of assignments each key holds the value written to it last, or its earlier value when never written |
| Php.PutPathGet | Gateway/Config/Loader.php:100 | a nested assignment `$o[$p][$g][$k] = $v` can be read back along the same path |
| Php.PutPathOther | Gateway/Config/Loader.php:100 | a nested assignment leaves every other path of the same depth unchanged |
| TransactionHandler.FlattenPrefixIs | Model/Service/TransactionHandlerService.php:185-194 | the record after the first `i` top-level entries is the run of all pairs those entries write |
| TransactionHandler.FlatPairsMember | Model/Service/TransactionHandlerService.php:185-194 | a pair is written exactly when some top-level entry contributes it |
| TransactionHandler.EntryPairsMember | Model/Service/TransactionHandlerService.php:186-193 | a non-array value is written unchanged under its own key; an array value writes exactly its entries under `key_k`, one level deep |
| TransactionHandler.FlattenedLookup | Model/Service/TransactionHandlerService.php:185-196 | each key of the flat record holds the value written to it last (a clash between `a_b` and `a => [b => ..]` is last-write-wins), and its keys are distinct |
| TransactionHandler.FlattenedExact | Model/Service/TransactionHandlerService.php:185-196 | without key clashes the flat record is exactly the written pairs, in write order |
| TransactionHandler.FlattenedKeeps | Model/Service/TransactionHandlerService.php:186-193 | without key clashes, every pair contributed by an entry other than `_links` is in the output |
| TransactionHandler.LinksIgnored | Model/Service/TransactionHandlerService.php:181-182 | a non-null `_links` entry contributes nothing: the output is that of the response without it |
| TransactionHandler.NullLinksKept | Model/Service/TransactionHandlerService.php:181-194 | for every response whose `_links` is null, `isset` is false, so nothing is removed and every entry is flattened; without key clashes `_links => null` is in the output |
| TransactionHandler.WorkedExample | Model/Service/TransactionHandlerService.php:177-197 | a response with an id, a `_links` block and a nested source flattens to `id`, `source_type`, `source_id`, `source_meta` (the deeper array kept as a value) |
| TransactionHandler.TransactionHandlerService.BuildDataArray | Model/Service/TransactionHandlerService.php:177-197 | the nested loops return exactly the flattened response |
| TransactionHandler.TransactionHandlerService.constructor | Model/Service/TransactionHandlerService.php:52-70 | the service keeps its invoice handler and configuration, and reports to the invoice handler's journal |
| TransactionHandler.TransactionHandlerService.CreateTransaction | Model/Service/TransactionHandlerService.php:75-162 | returns the id of the built transaction, which the model's builder sets to `paymentData['id']` (the given data when truthy, else the derived data); payment method set from the instance, last and current transaction id both that id, transaction left open; the transaction is built with that id, the type, the flattened payment data as raw details and fail-safe on; parent id, status, invoicer and journal as for `RecordByType`, then the three saves, which write the payment's and the order's final fields |
| TransactionHandler.TransactionHandlerService.PreparePayment | Model/Service/TransactionHandlerService.php:83-92 | method code from the method instance, last and current transaction id set to the id, transaction not closed, parent id untouched |
| TransactionHandler.TransactionHandlerService.RecordByType | Model/Service/TransactionHandlerService.php:113-155 | authorization: parent id null, status `order_status_authorized`; capture: parent id null, invoicer run exactly when `auto_invoice` is truthy, status `order_status_captured`; any other type: parent id and status unchanged; the journal grows by `TypeTrace` |
| TransactionHandler.TransactionHandlerService.AddAuthorization | Model/Service/TransactionHandlerService.php:114-128 | comment with the authorized phrase and amount, parent id null, status from `order_status_authorized` |
| TransactionHandler.TransactionHandlerService.AddCapture | Model/Service/TransactionHandlerService.php:131-155 | comment with the captured phrase, parent id null, the invoice run only when `auto_invoice` is truthy, then status from `order_status_captured` |
| TransactionHandler.TransactionHandlerService.SaveAll | Model/Service/TransactionHandlerService.php:157-160 | payment, transaction, order saved in that order; the payment and order saves write the fields those objects hold at that point |
| TransactionHandler.SavesLast | Model/Service/TransactionHandlerService.php:157-160 | the three saves are the last three calls, carrying the saved payment fields and order status, and no save comes earlier |
| TransactionHandler.InvoiceOnlyOnAutoCapture | Model/Service/TransactionHandlerService.php:145-149 | an invoice step occurs exactly for a capture with `auto_invoice` on and an invoiceable order |
| TransactionHandler.InvoiceBeforeStatus | Model/Service/TransactionHandlerService.php:147-154 | no invoice step follows the status change |
| TransactionHandler.StatusByType | Model/Service/TransactionHandlerService.php:114-155 | the status is set exactly once for an authorization or a capture, to that type's configured status, just before the saves, and never for another type |
| TransactionHandler.TransactionHandlerService.GetTransactions | Model/Service/TransactionHandlerService.php:223-235 | with a truthy type and a non-empty fetch, the fetched transactions of that type in fetch order; otherwise the fetched list unchanged |
| TransactionHandler.OfTypeMember | Model/Service/TransactionHandlerService.php:224-232 | a transaction is listed exactly when it was fetched and has the requested type |
| TransactionHandler.OfTypeOrdered | Model/Service/TransactionHandlerService.php:226-230 | the listed transactions are a subsequence of the fetched ones (fetch order kept) |
| InvoiceHandler.InvoiceHandlerService.constructor | Model/Service/InvoiceHandlerService.php:55-67 | the service starts with no stored order |
| InvoiceHandler.InvoiceHandlerService.ProcessInvoice | Model/Service/InvoiceHandlerService.php:72-83 | stores the order before the guard; invoices only when the order can be invoiced; returns null on every path |
| InvoiceHandler.InvoiceHandlerService.CreateInvoice | Model/Service/InvoiceHandlerService.php:88-102 | the invoice for the stored order asks for online capture and is registered before it is saved; a throwing call is logged and stops the run; null is returned either way |
| InvoiceHandler.InvoiceHandlerService.GetInvoice | Model/Service/InvoiceHandlerService.php:107-119 | the increment id loaded by is that of the last invoice in the collection, null when the collection is empty |
| InvoiceHandler.InvoiceSavedOnlyOnline | Model/Service/InvoiceHandlerService.php:90-101 | an invoice reaches the repository exactly when no call threw, and it is registered and asks for online capture |
| InvoiceHandler.InvoiceStepsOrdered | Model/Service/InvoiceHandlerService.php:92-97 | the capture case is requested before registration, and registration comes before the save |
| InvoiceHandler.InvoiceFailureLogged | Model/Service/InvoiceHandlerService.php:98-101 | a failed run ends with one log line carrying the exception's message; a successful run logs nothing |
| ConfigLoader.Hidden | Gateway/Config/Loader.php:158-168 | `isHidden`: a field without commas is hidden exactly when it is a comma-separated item of `settings/checkoutcom_configuration/fields_hidden` |
| ConfigLoader.Encrypted | Gateway/Config/Loader.php:170-181 | `isEncrypted`: a field without commas is encrypted exactly when it is a comma-separated item of `settings/checkoutcom_configuration/fields_encrypted` |
| ConfigLoader.StoreKeyGet | Gateway/Config/Loader.php:86-101 | one visit of the innermost loop stores a non-hidden field at its own path only, and a hidden field nowhere |
| ConfigLoader.KeysDoneGet | Gateway/Config/Loader.php:84-102 | after a group's fields, each listed non-hidden field of the group holds its stored value; every other path is unchanged |
| ConfigLoader.GroupsDoneGet | Gateway/Config/Loader.php:83-103 | after a parent's groups, the same holds for every group of the parent |
| ConfigLoader.ParentsDoneGet | Gateway/Config/Loader.php:82-104 | after the parents, the same holds for every parent |
| ConfigLoader.ConfigTreeLookup | Gateway/Config/Loader.php:82-104 | `output[p][g][k]` is defined exactly when the XML lists `k` in group `g` of `p` and `k` is not hidden; it is then the scope value at `p/g/k`, decrypted exactly when `k` is an encrypted field |
| ConfigLoader.LoadedConfigLookup | Gateway/Config/Loader.php:73-110 | the returned array holds the payment-method list at `settings/checkoutcom_configuration/apm_list`, written last so it replaces a field of that name, and elsewhere exactly the fields of `ConfigTreeLookup` |
| ConfigLoader.HiddenNeverLoaded | Gateway/Config/Loader.php:86-107 | a hidden field is never in the loaded configuration, whatever the XML lists, except at `settings/checkoutcom_configuration/apm_list`, where the payment-method list is written last whatever `fields_hidden` says |
| ConfigLoader.ApmRows | Gateway/Config/Loader.php:121-132 | one row per XML item, in order, under the keys 0, 1, 2, ...; each row is the item's id as `value` and its translated title as `label` |
| ConfigLoader.Loader.LoadApmList | Gateway/Config/Loader.php:121-132 | the loop builds as many rows as there are items, row `i` under key `i` holding item `i`'s id and translated title |
| ConfigLoader.Loader.StoreFields | Gateway/Config/Loader.php:84-102 | the innermost loop stores a group's non-hidden fields one by one |
| ConfigLoader.Loader.BuildTree | Gateway/Config/Loader.php:82-104 | the outer two loops build the configuration tree of the XML |
| ConfigLoader.Loader.LoadConfig | Gateway/Config/Loader.php:73-118 | when the XML cannot be loaded, the failure is reported with "The module configuration file can't be loaded - " followed by the cause's message, passed through `__()`; otherwise the XML is kept and the loaded configuration returned |
| ConfigLoader.Loader.Wire | Gateway/Config/Loader.php:55-69 | the loader keeps the framework services it is given |
| ConfigLoader.Loader.Create | Gateway/Config/Loader.php:55-71 | construction fails exactly when loading fails, with the same translated message; otherwise the new loader holds the XML and the configuration loaded from it |
| ConfigLoader.ValuePathSegments | Gateway/Config/Loader.php:185-187 | with a truthy method id the path is `payment/<method>/<key>`, otherwise `settings/checkoutcom_configuration/<key>`, split into exactly those three levels |
| ConfigLoader.Loader.GetValue | Gateway/Config/Loader.php:183-201 | with a truthy method id, the value the loader stores for the key under `payment/<method>`; otherwise the one it stores under `settings/checkoutcom_configuration`; in both cases decrypted exactly when the key alone is an encrypted field |
| ConfigLoader.GetValueMatchesMethodField | Gateway/Config/Loader.php:183-201 | reading a payment method's listed, non-hidden field directly gives the value the loader stored for it |
| ConfigLoader.GetValueMatchesSetting | Gateway/Config/Loader.php:183-201 | reading a module setting without a method id gives the value the loader stored for it (the `apm_list` slot aside) |
| Utilities.HasOwnProperty | view/frontend/web/js/view/payment/utilities.js:28 | throws exactly on null or undefined; true exactly for an object with that own property |
| Utilities.GetValue | view/frontend/web/js/view/payment/utilities.js:26-36 | the method's own value wins whatever the global block holds; otherwise the global block's value; otherwise null; it throws exactly when it asks a null or undefined block |
| Utilities.GetUrl | view/frontend/web/js/view/payment/utilities.js:60-62 | the framework's URL builder receives `checkout_com/` followed by the path, unchanged |
| Utilities.RouteSegments | view/frontend/web/js/view/payment/utilities.js:60-62 | split at '/', the route is `checkout_com` followed by the path's own pieces |
| Utilities.RouteDetermined | view/frontend/web/js/view/payment/utilities.js:60-62 | the route `getUrl` builds is the only string whose pieces at '/' are `checkout_com` followed by the path's pieces (both directions) |
| Utilities.GetCustomerName | view/frontend/web/js/view/payment/utilities.js:70-81 | throws exactly for a null or undefined billing address; the result is an object exactly when `obj` is truthy, and a string otherwise |
| Utilities.NameObjectForm | view/frontend/web/js/view/payment/utilities.js:71-76 | the object form's `first_name` and `last_name` are the address's `firstname` and `lastname` |
| Utilities.NameFormsAgree | view/frontend/web/js/view/payment/utilities.js:70-81 | the string form is the object form's two names joined by one space |
| Utilities.NameSplitsBack | view/frontend/web/js/view/payment/utilities.js:77-79 | with string names and a first name without spaces, the full name splits back at its first space into the two names |

## Left out

- Framework services are parameters or uninterpreted functions, not models of their own:
  - the transaction builder's internals;
  - the repository `getList` query, whose result is the `fetched` parameter of `GetTransactions`;
  - `prepareInvoice`, `register` and `loadByIncrementId`;
  - `formatTxt` currency formatting, which is floating point; the formatted amount is a parameter;
  - reading and parsing the XML files (`getFilePath`, `loadXmlData`); the parsed arrays are the `XmlData` parameter;
  - scope-configuration storage, decryption and translation `__()`, which are functions in `Platform`;
  - the order's payment-data helper, whose output is the `derived` parameter;
  - logging.
- TransactionHandler.TransactionHandlerService.CreateTransaction: the transaction builder is taken to return a transaction whose id is the gateway id it was given, so the method returns `paymentData['id']`. On the platform, `getTransactionId()` reads the saved record's own id, and `build()` returns no transaction when the id is null. In that case the source fails at the transaction's save, while the model completes with a null id. Neither behaviour is modelled.
- Which framework call throws while an invoice is created is a parameter (`InvoiceFault`); the thrown exception itself is not modelled.
- Exceptions thrown inside `createTransaction` and `getTransactions` are not modelled. Their catch clauses name an unqualified `Exception` inside the module's namespace, which does not match `\Exception`, so neither method reaches its `return false` path in practice.
- In `loadConfig`, only a failure to load the XML is modelled as an exception. Exceptions raised by the scope configuration, the encryptor or the translator are not.
- InvoiceHandler.InvoiceHandlerService.GetInvoice: returns the increment id the invoice is loaded by, not the loaded invoice object. With an empty collection the source reads an unset variable (null) and passes it to the loader.
- Loose comparison (`==`, `in_array`) between numeric strings is modelled as plain string equality. The compared values are XML element names and transaction type codes, which are never numeric.
- PHP integer array keys are kept in their decimal string form; PHP folds the two into one key.
- Utilities.HasOwnProperty: a primitive receiver is taken to have no own properties. A JavaScript string also has index and `length` properties, but the configuration blocks are objects.
- Utilities.GetCustomerName: JavaScript numbers are modelled as integers only; fractional numbers are not modelled.
- Loose reading of `$row['id']` on a non-array APM row follows `Index` (null). PHP's string-offset behaviour for a string row is not modelled.
- The DOM, AJAX and cookie code of `utilities.js` is not modelled: `showMessage`, `clearMessages`, `allowPlaceOrder`, `placeOrder`, `setEmail`, `getEmail` and `isUrl`. The remaining getters are not modelled either. `getStoreName` reads `store.name` under the `checkoutcom_configuration` block of `Config`. `getQuoteValue`, `getQuoteCurrency` and `userHasCards` read `quote.value`, `quote.currency` and `user.hasCards` under its `checkoutcom_data` block. `getBillingAddress` returns `Quote.billingAddress()`, which is the `address` parameter of `GetCustomerName`. `getPhone` wraps that address's `telephone` in an object.
