# Debugging helper tool: argument check and filter construction

The payment gateway's debugging helper tool is a command-line program that,
given a transaction ID or an RRN (retrieval reference number), looks up the
matching transaction records in the logging backend, prints their logs, and
then asks the transaction-listing API about them. This project models, in the
module `DebugHelper` (`debug_helper.dfy`), the three pieces of that program
that are pure logic:

- **Argument validation** (`ValidateParams`): the run is refused when both the
  RRN and the transaction ID are empty, with the error message of the source.
- **Identity key** (`IdentityKey`, `IdentityFilter`): the key handed to the
  filter builder for the first log query. It is the transaction ID when one is
  given; otherwise it is the RRN wrapped in the customer-reference literal
  `"custRef=\"<rrn>\""`. The filter builder itself (`getFilterStringIDs`) is
  defined outside this model and is a function parameter whose output is not
  interpreted.
- **API filter list** (`GenerateAPIFilter`): a method with the source's loop
  that appends one `transactionID = <id>` filter per discovered record, in
  record order, and falls back to the single filter `rrn = <rrn>` when no
  record was discovered. It is proved equal to the specification function
  `ApiFilters`, about which the lemmas are stated.

Decoders used to state the properties: `ParseCustRef` recovers the RRN from a
customer-reference literal, and `ParseApiFilter` decodes an API filter string
back into the query (`ByTransactionId` or `ByRrn`) it stands for; round-trip
lemmas show both encodings are unambiguous.

The Go code detects "no record" with `filterList == nil`. Since an `append` of one
element never returns a nil slice, the slice is nil exactly when the loop appended nothing,
so the model tests for an empty sequence.

One consequence of the source is recorded as a lemma
(`TxnIdOnlyWithoutRecordsAsksEmptyRrn`): when only a transaction ID is given
and the first log query finds no record (or fails, lines 66-69, if `getTxnIDs`
then returns no records; its body is not part of this model), line 91 builds
the API filters from an empty RRN and no records, so the API is asked for
`rrn = ` with nothing after it.

## Model

| member | source | states |
|---|---|---|
| DebugHelper.ValidateParams | debugging_helper_tool/main.go:35-40 | validation succeeds exactly when the RRN or the transaction ID is non-empty; the failure carries the source's message |
| DebugHelper.IdentityKeyPrefersTxnId | debugging_helper_tool/main.go:58-60 | with a non-empty transaction ID the key is that ID, the first query's filter is the filter builder applied to that ID, and it does not depend on the RRN |
| DebugHelper.IdentityKeyQuotesRrn | debugging_helper_tool/main.go:61-64 | with an empty transaction ID the key is exactly `"custRef=\"` + rrn + `\""`, the first query's filter is the filter builder applied to that literal, and the RRN can be read back from it |
| DebugHelper.ValidatedIdentifierNonEmpty | debugging_helper_tool/main.go:36-63 | once validation passes, the identifier the key is built from is non-empty, and the key is that identifier or its customer-reference literal |
| DebugHelper.ParseCustRef | debugging_helper_tool/main.go:62 | any string the decoder accepts is the customer-reference literal of the RRN it returns |
| DebugHelper.CustRefRoundTrip | debugging_helper_tool/main.go:62 | decoding the customer-reference literal of an RRN gives back that RRN |
| DebugHelper.CustRefLiteralInjective | debugging_helper_tool/main.go:62 | distinct RRNs produce distinct customer-reference literals |
| DebugHelper.GenerateAPIFilter | debugging_helper_tool/main.go:23-33 | the loop-built filter list equals the specification list `ApiFilters` of the RRN and the records |
| DebugHelper.TxnFilters | debugging_helper_tool/main.go:25-28 | the loop's output has one entry per record, entry i being the `transactionID = ` filter of record i |
| DebugHelper.ApiFiltersPerRecord | debugging_helper_tool/main.go:24-28 | with records, the list has the records' length and entry i is `"transactionID = " + records[i].txnId` |
| DebugHelper.ApiFiltersFallback | debugging_helper_tool/main.go:29-31 | with no records, the list is exactly `["rrn = " + rrn]` |
| DebugHelper.ApiFiltersFallbackIffEmpty | debugging_helper_tool/main.go:29 | an `rrn = ` filter appears exactly when there are no records, and with records the list does not depend on the RRN |
| DebugHelper.TxnIdOnlyWithoutRecordsAsksEmptyRrn | debugging_helper_tool/main.go:46-91 | with only a transaction ID given, validation passes, and when no record is found the API filter list is `["rrn = "]`, a fallback with an empty RRN |
| DebugHelper.ApiFiltersNonEmpty | debugging_helper_tool/main.go:23-33 | the filter list is never empty |
| DebugHelper.ParseApiFilter | debugging_helper_tool/main.go:27-30 | any string the decoder accepts is the rendering of the query it returns |
| DebugHelper.ApiFilterRoundTrip | debugging_helper_tool/main.go:27-30 | both filter formats decode back to the query they were rendered from |
| DebugHelper.ApiFiltersDecode | debugging_helper_tool/main.go:23-33 | filter i decodes to logical query i: one by transaction ID per record in order, or the single RRN query |

## Left out

- Flag parsing, `log.Fatalf`, process exit and the logging endpoint and scope options (main.go lines 17-21, 43, 48-53): command-line and SDK configuration.
- `newLogClient`, `getTxnIDs`, `getLogs` and `requestID`: network calls through the logging SDK whose bodies are not part of this model; the records they return are a parameter of `GenerateAPIFilter`.
- `getFilterStringIDs` and `getFilterString`: defined in files that are not part of this model; the former is a function parameter of `IdentityFilter`, the latter is not modelled.
- The per-record correlation loop (lines 71-83), `printTxnDetails` and `processAndPrintLogs`: external queries and console output only.
- The gRPC dial, client construction and `printListTransactionsResponse` (lines 85-92): remote calls; the unchecked error at line 92 is not modelled.
- `logadmin.Filter(...)` (lines 60, 63, 72): the SDK option that wraps the filter string is not modelled; `IdentityFilter` returns the string itself.
- Go strings are byte sequences and the model uses Dafny character sequences; nothing stated here depends on the difference, since the model only concatenates, tests prefixes and compares with the empty string.
- Records are modelled as values; a nil record pointer in the slice, whose `getTxnId()` behaviour is defined elsewhere, is not modelled.
