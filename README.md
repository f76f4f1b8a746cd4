# Tracking-number upload: a Dafny model

This project models the upload handler of a Shopify app. A merchant uploads a
delimited-text file or a spreadsheet that pairs orders with tracking numbers.
For each row, the handler finds the order and an open fulfillment order, then
creates a fulfillment that carries the tracking number and, when given, the
carrier. The handler is the `action` export of `app/routes/app._index.jsx`.

It runs in five stages:

1. **Format dispatch.** The file name is lower-cased. `.csv` and `.txt` go to
   the text decoder, `.xlsx` and `.xls` go to the spreadsheet decoder, and any
   other name is rejected before anything is decoded.
2. **Batch guards.** A batch with no records is rejected. So is a batch whose
   order or tracking column cannot be found; that message lists every header
   of the first record, joined by `", "`.
3. **Column detection.** Each column takes the first header of the first
   record whose lower-cased text passes that column's test (`Schema.Matches`).
4. **Row loop.** Each row updates a mutable `results` accumulator (the
   `Batch.Results` class). A row missing its order or tracking cell counts as
   a failure with no message and no remote call. Otherwise the row searches
   for its raw order cell, takes the first returned order, picks that
   order's first `OPEN` or `IN_PROGRESS` fulfillment order, and sends a
   fulfillment mutation. The mutation's reply decides success or failure.
5. **Error cap.** If there are more than 50 messages, the first 50 are kept
   and `"...and more errors."` is appended.

The modules follow these stages:

- `Text`: lower-casing, substring test, suffix test and join.
- `Records`: format dispatch and decoded rows.
- `Schema`: column detection.
- `Remote`: the platform's replies, the choice of fulfillment order, and the
  mutation's input.
- `Reconcile`: one row, as a function.
- `Batch`: the tally, the cap, the `Results` class and the row loop.
- `Handler`: the handler as a function (`Handle`), and the step-by-step
  `Action` method proved equal to it.
- `Scenarios`: worked batches.

The remote platform is a parameter: a `Platform` holds two total functions.
One gives the order-search reply for a (row index, query) pair. The other
gives the mutation reply for a (row index, input) pair. Replies can therefore
change during a batch, for example after an earlier row fulfilled the same
order. The decoders are a parameter too: a function from the chosen format to
the decoded records or a parse error. The handler returns its answer together
with the list of calls it made (`Reconcile.Call`), so that "nothing is
decoded" and "no remote call is made" can be stated and proved.

The model follows two details of the code closely:

- The search sends the raw order cell as its query. The string
  `name:X OR id:X` built at line 154 is never used, though the comment at
  line 153 says the search is by name or id.
- A whitespace-only or numeric cell is whatever the decoder delivered. A cell
  counts as missing only when it is absent or the empty string.

## Model

| member | source | states |
|---|---|---|
| Records.Present | app/routes/app._index.jsx:146 | JavaScript truthiness of a cell, as used at lines 146 and 215: present and not the empty string |
| Records.SelectFormat | app/routes/app._index.jsx:83-103 | the text path is chosen exactly when the lower-cased name ends in `.csv` or `.txt`; the spreadsheet path exactly when it ends in neither but in `.xlsx` or `.xls`; otherwise no decoder is chosen |
| Records.SelectFormatIgnoresCase | app/routes/app._index.jsx:83 | lower-casing the name first changes no choice, so the suffix test ignores letter case |
| Text.ToLowerIdempotent | app/routes/app._index.jsx:83 | lower-casing yields a lower-case string, keeps a lower-case one unchanged, and applied twice equals applied once |
| Text.Join | app/routes/app._index.jsx:137 | joining no parts gives the empty string, one part gives that part, and every part occurs in the result |
| Records.Keys | app/routes/app._index.jsx:117-137 | `Object.keys(row)`: one key per field, the field's key at the same position |
| Records.Lookup | app/routes/app._index.jsx:142-144 | `row[key]` is absent exactly when the row has no such key; otherwise it is the value of a field with that key |
| Schema.Matches | app/routes/app._index.jsx:119-132 | the three column tests on the lower-cased header: order when it contains "order" or "name" or is "id"; tracking when it contains "tracking" but neither "company" nor "url"; carrier when it contains "company" or "carrier" |
| Schema.FindHeader | app/routes/app._index.jsx:119-132 | the header found matches the column's test and no earlier header does; nothing is found exactly when no header matches |
| Schema.FindHeaderUnique | app/routes/app._index.jsx:119-132 | any position that holds a matching header with no matching header before it is the one `find` returns |
| Schema.FindKey | app/routes/app._index.jsx:119-132 | no header name is returned exactly when no header passes the column's test; otherwise the name returned is a header that passes it, at a position with no passing header before it |
| Schema.InferSchema | app/routes/app._index.jsx:119-139 | no mapping exactly when no header passes the order test or none passes the tracking test; otherwise the order and tracking columns are the first matching headers, and the carrier column is the first carrier match or none |
| Schema.FoundHeaderNonEmpty | app/routes/app._index.jsx:134 | a header that passes any test is non-empty, so the falsiness guard on the found key means "not found" |
| Remote.Eligible | app/routes/app._index.jsx:190 | a fulfillment order admits a new fulfillment exactly when its status is `OPEN` or `IN_PROGRESS` |
| Remote.FirstEligible | app/routes/app._index.jsx:190 | the fulfillment order chosen is OPEN or IN_PROGRESS and sits at a position with no eligible one before it; none is chosen exactly when none is eligible |
| Remote.FirstEligibleSkipsIneligible | app/routes/app._index.jsx:190 | ineligible fulfillment orders in front of the rest never change the choice |
| Reconcile.CompanyCell | app/routes/app._index.jsx:144 | without a carrier column there is no company cell; with one, the cell is absent exactly when the row lacks that key, and otherwise it is the value the row stores under it |
| Remote.TrackingInput | app/routes/app._index.jsx:201-217 | the input targets the given fulfillment order and always carries the tracking number; it carries the company exactly when the company cell is present and non-empty, and then carries that cell |
| Reconcile.Resolve | app/routes/app._index.jsx:177-198 | an absent or empty order list means "not found"; a thrown search keeps its message; otherwise only the first order counts, and its first eligible fulfillment order is the target, or there is "no open fulfillment order" exactly when none is eligible |
| Reconcile.ResolveUsesFirstOrder | app/routes/app._index.jsx:186 | orders after the first one in the search reply never affect the resolution |
| Reconcile.Dispatch | app/routes/app._index.jsx:235-243 | an absent or empty `userErrors` list is a success; a non-empty one is a rejection carrying its first message; a thrown mutation keeps its message |
| Reconcile.RunRow | app/routes/app._index.jsx:141-249 | a row is skipped exactly when its order or tracking cell is missing, and a skipped row makes no call; any other row first searches for exactly its order cell; a mutation is sent exactly when the search resolves a target, and it targets that fulfillment order with the row's tracking cell; a success always follows a mutation without user errors; every call is a remote call for this row |
| Reconcile.RowMessages | app/routes/app._index.jsx:180-248 | the message a failing row adds for each resolution and mutation reply: "Order not found: X", "No open fulfillment order for: X", "Failed to fulfill X: <first user error>", "Error processing X: <message>" |
| Batch.Step | app/routes/app._index.jsx:146-249 | one row adds exactly one to `success + fail`: a success adds one to `success` only; any other outcome adds one to `fail` only; a failure with a message appends exactly that message, and any other outcome leaves the messages unchanged |
| Batch.Tally | app/routes/app._index.jsx:141-250 | after the loop, `success + fail` equals the number of rows, and there are never more messages than failures |
| Batch.RowCountsOnce | app/routes/app._index.jsx:146-249 | each row increments exactly one counter by one: `success` exactly when it succeeded, `fail` otherwise; it appends a message exactly when it failed with one |
| Batch.ErrorsOnlyGrow | app/routes/app._index.jsx:141-250 | messages are only appended in row order: the messages after a prefix of the rows are a prefix of the final messages, and the counters only grow |
| Batch.TraceInRowOrder | app/routes/app._index.jsx:141-250 | the remote calls come row by row in file order, and each one is made for a row of the batch |
| Batch.NoCarrierColumnOmitsCompany | app/routes/app._index.jsx:144 | without a carrier column, no mutation of the batch carries a company |
| Batch.SuccessesFollowMutations | app/routes/app._index.jsx:219-243 | the success counter never exceeds the number of fulfillment mutations sent |
| Batch.Capped | app/routes/app._index.jsx:253-256 | with more than 50 messages, the list becomes the first 50 followed by the marker, 51 entries in all; with 50 or fewer it is unchanged |
| Batch.CappedProperties | app/routes/app._index.jsx:253-256 | the capped list has at most 51 entries and is never longer than the original; each entry is the original's entry at that position, except the marker at position 50; capping twice is capping once |
| Batch.BatchReport | app/routes/app._index.jsx:141-258 | the returned `results` count every row exactly once in `success + fail`, hold at most 51 messages, and never more messages than failures |
| Batch.Results.constructor | app/routes/app._index.jsx:113 | the accumulator starts with zero successes, zero failures and no messages |
| Batch.Results.CountSuccess | app/routes/app._index.jsx:242 | `success` goes up by one and nothing else changes |
| Batch.Results.CountFailure | app/routes/app._index.jsx:147 | `fail` goes up by one and nothing else changes |
| Batch.Results.CountError | app/routes/app._index.jsx:181-182 | `fail` goes up by one and the message is appended; `success` is unchanged |
| Batch.Results.CapErrors | app/routes/app._index.jsx:253-256 | the messages become their capped form, the counters are unchanged, and there are still no more messages than failures |
| Batch.ProcessRow | app/routes/app._index.jsx:142-249 | the loop body updates the accumulator by exactly the row's outcome and makes exactly the row's calls |
| Batch.RunBatch | app/routes/app._index.jsx:141-256 | the loop followed by the cap returns the tally of all rows with capped messages, and makes every row's calls in row order |
| Handler.ColumnsMessage | app/routes/app._index.jsx:134-139 | the schema error message starts with the fixed text and contains every header of the first record |
| Handler.Handle | app/routes/app._index.jsx:66-258 | nothing is called exactly when there is no file or its suffix is unsupported, and then the answer is an error; the answer is a success exactly when the file decodes to a non-empty batch whose order and tracking columns are found |
| Handler.Action | app/routes/app._index.jsx:66-258 | the step-by-step handler gives the same answer and makes the same calls as the function `Handle` |
| Handler.HandleRunsBatch | app/routes/app._index.jsx:83-258 | a supported file that decodes to records whose columns are found is answered with the capped tally of its rows, after the decoding call and then every row's calls |
| Handler.HandleRejectsSchema | app/routes/app._index.jsx:134-139 | a supported file that decodes to records whose columns are not found is answered with the column message, after the decoding call alone |
| Handler.UnsupportedDecodesNothing | app/routes/app._index.jsx:101-103 | an unsupported suffix is answered "Unsupported file type" with no call at all, so nothing is decoded |
| Handler.DecodesSelectedFormatOnly | app/routes/app._index.jsx:86-100 | the decoder the suffix selects runs first, and it is the only decoder run; every later call is remote |
| Handler.ErrorsMakeNoRemoteCall | app/routes/app._index.jsx:76-139 | every batch-level error answer has made at most the decoding call and no remote call |
| Handler.NoFileRejected | app/routes/app._index.jsx:76-78 | a request without a file part is answered "No file uploaded. Please select a valid CSV, Excel, or TXT file." with no call at all |
| Handler.ParseErrorRejected | app/routes/app._index.jsx:104-106 | a decoder failure is answered "Error parsing file: " followed by the decoder's own message, after the decoding call alone |
| Handler.EmptyBatchRejected | app/routes/app._index.jsx:108-110 | a batch that decodes to no records is answered "No records found in the uploaded file." |
| Handler.SchemaErrorNamesHeaders | app/routes/app._index.jsx:134-139 | when the first record has no order header or no tracking header, the answer is the error whose message joins all its headers with ", ", and each header occurs in it |
| Handler.SuccessAccountsForEveryRow | app/routes/app._index.jsx:141-258 | a success answer counts every decoded record exactly once in `success + fail`, has at most 51 messages, and has no more messages than failures |
| Handler.SuccessCallsInRowOrder | app/routes/app._index.jsx:141-250 | on success the remote calls follow the row order, and there are at least as many mutations as counted successes |
| Scenarios.SampleSchema | app/routes/app._index.jsx:119-132 | for the headers Order Name, Tracking Number, Tracking Company, the three columns are found in that order |
| Scenarios.SampleResponse | app/routes/app._index.jsx:141-258 | the two-row sample (#1001 resolves, #1002 does not) is answered with 1 success, 1 failure and the one message "Order not found: #1002" |
| Scenarios.SampleBatch | app/routes/app._index.jsx:141-256 | the two-row sample batch has 1 success, 1 failure and the one message "Order not found: #1002"; its calls are the search and the mutation for #1001, targeting its open fulfillment order with TRACK1 and FedEx, and then the search for #1002 |
| Scenarios.SampleCalls | app/routes/app._index.jsx:86-258 | on the sample file, the handler first runs the text decoder and then makes exactly the rows' calls |
| Scenarios.SpreadsheetOmitsCompany | app/routes/app._index.jsx:213-217 | for a spreadsheet with headers OrderID and Tracking#, whatever its rows and the platform, no mutation carries a company |
| Scenarios.UnidentifiedColumnsRejected | app/routes/app._index.jsx:134-139 | a file with headers Date and Amount is rejected with the message that names "Date, Amount", after decoding and with no other call |
| Scenarios.AmbiguousHeader | app/routes/app._index.jsx:119-132 | the header "Order Tracking Company" passes the order test and the carrier test, but not the tracking test |

## Left out

- The decoders: csv-parse with its BOM, trimming, ragged-row and empty-line options (lines 88-95), and SheetJS reading the first sheet (lines 97-100). These are third-party libraries. Their result is an input: the records, in `Object.keys` order, or a parse error with its message.
- Authentication (line 67), multipart parsing and its 50 MB part limit (lines 70-73), and reading the file's bytes (lines 80-81). These are framework calls. Only whether a file part exists, and its name, are modelled.
- The GraphQL transport and JSON decoding (lines 155-177 and 219-236). The platform is a scripted oracle that gives the final replies. A reply is read as the code reads it with optional chaining. A search reply lacking `data`, `orders` or `edges` is `NoEdges`, so the row gets "Order not found" (lines 178-183). A mutation reply lacking `data`, `fulfillmentCreateV2` or `userErrors`, such as `data: null` with top-level GraphQL errors, is `NoUserErrors`, so the row counts as a success (lines 236-243). Only a reply that makes the code throw becomes a `...Throws` reply carrying its message: a transport failure, or a null `edges[0].node` or `fulfillmentOrders` at lines 186-187. This includes `err.message` being undefined for a non-Error throw.
- The `first: 1` and `first: 5` page sizes of the search. The oracle's reply is whatever the platform returns. The model still takes only the first order and searches its whole fulfillment-order list.
- The `field` of each user error. Only the messages are modelled, and only the first one is used.
- The unused query string at line 154. It has no effect.
- The outer catch-all (lines 260-263) and `console.error`. These are runtime fault plumbing.
- `loader`, the `Index` component, `app/routes/webhooks.jsx` and `ecosystem.config.cjs`. These are a sample download, UI, a webhook acknowledgement and deployment configuration.
- async/await. The rows run strictly one after another, and the call list records that order.
- Text.ToLower: lower-cases only the ASCII letters A-Z. JavaScript's `toLowerCase` also maps non-ASCII letters, so a header like "ORDER" written with non-ASCII capitals is not covered.
- Records.Lookup: cells are text. A numeric spreadsheet cell (where JavaScript treats 0 as missing and formats numbers in messages) is assumed to have been delivered as text.
- Records.Row: a row is a list of fields, so it could hold two fields with the same key, which no JavaScript object can. Such a row is not real decoder output. For one, `Lookup` would return the first field and `Keys` would list the key twice.
