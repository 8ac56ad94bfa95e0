/*
 * Model of the argument check and the filter construction of the payment
 * gateway's log-correlation debugging tool (debugging_helper_tool/main.go).
 *
 * Three pieces are modelled:
 *  - ValidateParams: at least one of RRN and transaction ID must be given;
 *  - IdentityKey / IdentityFilter: the key that selects the first log query,
 *    either the transaction ID itself or a quoted customer-reference literal;
 *  - GenerateAPIFilter: the filter list sent to the transaction-listing API,
 *    one `transactionID = <id>` per discovered record, or a single
 *    `rrn = <rrn>` fallback when no record was discovered.
 */
module DebugHelper {

  datatype Option<T> = None | Some(value: T)

  // ---------------------------------------------------------------------------
  // Argument validation
  // ---------------------------------------------------------------------------

  /** The message of the error that validateParams returns. */
  const InvalidParamsMessage: string := "User should provide atleast one of rrn or txnid"

  /** None stands for Go's nil error; Some(msg) for the error value. */
  function ValidateParams(rrn: string, txnid: string): (err: Option<string>)
    ensures err.None? <==> (rrn != "" || txnid != "")
    ensures err.Some? ==> err.value == InvalidParamsMessage
  {
    if rrn == "" && txnid == "" then Some(InvalidParamsMessage) else None
  }

  // ---------------------------------------------------------------------------
  // Identity key: the argument handed to getFilterStringIDs
  // ---------------------------------------------------------------------------

  /** The characters `"custRef=\"` that open the customer-reference literal. */
  const CustRefOpen: string := "\"custRef=\\\""
  /** The characters `\""` that close the customer-reference literal. */
  const CustRefClose: string := "\\\"\""

  /** The customer-reference literal that quotes an RRN. */
  function CustRefLiteral(rrn: string): string
  {
    CustRefOpen + rrn + CustRefClose
  }

  /** Reference decoder: recovers the RRN from a customer-reference literal. */
  function ParseCustRef(s: string): (r: Option<string>)
    ensures r.Some? ==> CustRefLiteral(r.value) == s
  {
    var n := |CustRefOpen|;
    var m := |CustRefClose|;
    if |s| >= n + m && s[..n] == CustRefOpen && s[|s| - m..] == CustRefClose then
      assert s == s[..n] + s[n..|s| - m] + s[|s| - m..];
      Some(s[n..|s| - m])
    else
      None
  }

  /** Decoding the literal of an RRN gives back that RRN. */
  lemma CustRefRoundTrip(rrn: string)
    ensures ParseCustRef(CustRefLiteral(rrn)) == Some(rrn)
  {
  }

  /** Distinct RRNs give distinct customer-reference literals. */
  lemma CustRefLiteralInjective(r1: string, r2: string)
    requires CustRefLiteral(r1) == CustRefLiteral(r2)
    ensures r1 == r2
  {
    CustRefRoundTrip(r1);
    CustRefRoundTrip(r2);
  }

  /** The key chosen in main: the transaction ID when given, else the quoted RRN. */
  function IdentityKey(txnid: string, rrn: string): string
  {
    if txnid != "" then txnid else CustRefLiteral(rrn)
  }

  /** The identifier IdentityKey draws on: the transaction ID or the RRN. */
  function ChosenIdentifier(txnid: string, rrn: string): string
  {
    if txnid != "" then txnid else rrn
  }

  /**
   * The first log query's filter. getFilterStringIDs is defined outside this
   * model, so it is a parameter here and its output is not interpreted.
   */
  function IdentityFilter(txnid: string, rrn: string, filterStringIDs: string -> string): string
  {
    if txnid != "" then filterStringIDs(txnid)
    else filterStringIDs(CustRefLiteral(rrn))
  }

  /** A given transaction ID is the key, and the RRN has no influence on it. */
  lemma IdentityKeyPrefersTxnId(txnid: string, rrn1: string, rrn2: string, filterStringIDs: string -> string)
    requires txnid != ""
    ensures IdentityKey(txnid, rrn1) == txnid
    ensures IdentityFilter(txnid, rrn1, filterStringIDs) == filterStringIDs(txnid)
    ensures IdentityFilter(txnid, rrn1, filterStringIDs) == IdentityFilter(txnid, rrn2, filterStringIDs)
  {
  }

  /** Without a transaction ID the key is the literal `"custRef=\"<rrn>\""`, which gives back the RRN. */
  lemma IdentityKeyQuotesRrn(rrn: string, filterStringIDs: string -> string)
    ensures IdentityKey("", rrn) == "\"custRef=\\\"" + rrn + "\\\"\""
    ensures IdentityFilter("", rrn, filterStringIDs) == filterStringIDs("\"custRef=\\\"" + rrn + "\\\"\"")
    ensures ParseCustRef(IdentityKey("", rrn)) == Some(rrn)
  {
  }

  /** Once validation passes, the identifier behind the identity key is non-empty. */
  lemma ValidatedIdentifierNonEmpty(rrn: string, txnid: string)
    requires ValidateParams(rrn, txnid).None?
    ensures ChosenIdentifier(txnid, rrn) != ""
    ensures IdentityKey(txnid, rrn) == ChosenIdentifier(txnid, rrn)
         || ParseCustRef(IdentityKey(txnid, rrn)) == Some(ChosenIdentifier(txnid, rrn))
  {
  }

  // ---------------------------------------------------------------------------
  // API filter list
  // ---------------------------------------------------------------------------

  /**
   * A record found by the first log query; txnId stands for getTxnId().
   * msgId (getMsgId()) is read only by the correlation loop, which is not
   * modelled; it is kept for the record's shape.
   */
  datatype TxnLogDetails = TxnLogDetails(txnId: string, msgId: string)

  /** One logical query against the transaction-listing API. */
  datatype ApiQuery = ByTransactionId(id: string) | ByRrn(rrn: string)

  const TxnIdPrefix: string := "transactionID = "
  const RrnPrefix: string := "rrn = "

  /** The filter string of a query, as the two Sprintf formats render it. */
  function ApiFilterString(q: ApiQuery): string
  {
    match q
    case ByTransactionId(id) => TxnIdPrefix + id
    case ByRrn(rrn) => RrnPrefix + rrn
  }

  /** Reference decoder for filter strings. */
  function ParseApiFilter(s: string): (q: Option<ApiQuery>)
    ensures q.Some? ==> ApiFilterString(q.value) == s
  {
    if |s| >= |TxnIdPrefix| && s[..|TxnIdPrefix|] == TxnIdPrefix then
      assert s == s[..|TxnIdPrefix|] + s[|TxnIdPrefix|..];
      Some(ByTransactionId(s[|TxnIdPrefix|..]))
    else if |s| >= |RrnPrefix| && s[..|RrnPrefix|] == RrnPrefix then
      assert s == s[..|RrnPrefix|] + s[|RrnPrefix|..];
      Some(ByRrn(s[|RrnPrefix|..]))
    else
      None
  }

  /** True of a filter that decodes to the RRN fallback query. */
  predicate IsRrnFilter(s: string)
  {
    var q := ParseApiFilter(s);
    q.Some? && q.value.ByRrn?
  }

  /** Every filter string decodes to the query it was rendered from. */
  lemma ApiFilterRoundTrip(q: ApiQuery)
    ensures ParseApiFilter(ApiFilterString(q)) == Some(q)
  {
    var s := ApiFilterString(q);
    match q
    case ByTransactionId(id) =>
      assert s[..|TxnIdPrefix|] == TxnIdPrefix;
      assert s[|TxnIdPrefix|..] == id;
    case ByRrn(rrn) =>
      assert s[0] == 'r';
      assert |s| >= |TxnIdPrefix| ==> s[..|TxnIdPrefix|][0] == 'r';
      assert s[..|RrnPrefix|] == RrnPrefix;
      assert s[|RrnPrefix|..] == rrn;
  }

  /** The per-record filters, in record order, as the loop appends them. */
  function TxnFilters(records: seq<TxnLogDetails>): (fs: seq<string>)
    ensures |fs| == |records|
    ensures forall i :: 0 <= i < |records| ==> fs[i] == ApiFilterString(ByTransactionId(records[i].txnId))
  {
    if records == [] then []
    else
      var last := records[|records| - 1];
      TxnFilters(records[..|records| - 1]) + [ApiFilterString(ByTransactionId(last.txnId))]
  }

  /**
   * The filter list of generateAPIFilter. The Go code tests `filterList == nil`;
   * an append of one element never returns a nil slice, so the slice is nil
   * exactly when nothing was appended, which here is an empty sequence.
   */
  function ApiFilters(rrn: string, records: seq<TxnLogDetails>): seq<string>
  {
    var perRecord := TxnFilters(records);
    if |perRecord| == 0 then [ApiFilterString(ByRrn(rrn))] else perRecord
  }

  /**
   * With only a transaction ID given, validation passes; if no record is then
   * found, the API is asked for the RRN fallback with an empty RRN.
   */
  lemma TxnIdOnlyWithoutRecordsAsksEmptyRrn(txnid: string)
    requires txnid != ""
    ensures ValidateParams("", txnid).None?
    ensures ApiFilters("", []) == ["rrn = "]
  {
    assert RrnPrefix + "" == "rrn = ";
  }

  /** The queries the filter list stands for: one per record, else one by RRN. */
  function ApiQueries(rrn: string, records: seq<TxnLogDetails>): (qs: seq<ApiQuery>)
    ensures |qs| == if records == [] then 1 else |records|
  {
    if records == [] then [ByRrn(rrn)]
    else seq(|records|, i requires 0 <= i < |records| => ByTransactionId(records[i].txnId))
  }

  /** generateAPIFilter: builds the filter list step by step, as the source does. */
  method GenerateAPIFilter(rrn: string, tld: seq<TxnLogDetails>) returns (filterList: seq<string>)
    ensures filterList == ApiFilters(rrn, tld)
  {
    filterList := [];
    var i := 0;
    while i < |tld|
      invariant 0 <= i <= |tld|
      invariant filterList == TxnFilters(tld[..i])
    {
      var id := tld[i].txnId;
      assert tld[..i + 1][..i] == tld[..i];
      filterList := filterList + [TxnIdPrefix + id];
      i := i + 1;
    }
    assert tld[..i] == tld;
    if |filterList| == 0 {
      filterList := filterList + [RrnPrefix + rrn];
    }
  }

  /** The filter list is never empty. */
  lemma ApiFiltersNonEmpty(rrn: string, records: seq<TxnLogDetails>)
    ensures |ApiFilters(rrn, records)| >= 1
  {
  }

  /** With records: one `transactionID = <id>` per record, in record order. */
  lemma ApiFiltersPerRecord(rrn: string, records: seq<TxnLogDetails>)
    requires records != []
    ensures |ApiFilters(rrn, records)| == |records|
    ensures forall i :: 0 <= i < |records| ==> ApiFilters(rrn, records)[i] == "transactionID = " + records[i].txnId
  {
  }

  /** Without records: exactly the one fallback `rrn = <rrn>`. */
  lemma ApiFiltersFallback(rrn: string)
    ensures ApiFilters(rrn, []) == ["rrn = " + rrn]
  {
  }

  /** The fallback appears exactly when there are no records, and the RRN matters only then. */
  lemma ApiFiltersFallbackIffEmpty(rrn1: string, rrn2: string, records: seq<TxnLogDetails>)
    ensures (exists i :: 0 <= i < |ApiFilters(rrn1, records)| && IsRrnFilter(ApiFilters(rrn1, records)[i]))
            <==> records == []
    ensures records != [] ==> ApiFilters(rrn1, records) == ApiFilters(rrn2, records)
  {
    var fs := ApiFilters(rrn1, records);
    if records == [] {
      ApiFilterRoundTrip(ByRrn(rrn1));
      assert ParseApiFilter(fs[0]) == Some(ByRrn(rrn1));
    } else {
      forall i | 0 <= i < |fs|
        ensures !IsRrnFilter(fs[i])
      {
        ApiFilterRoundTrip(ByTransactionId(records[i].txnId));
      }
    }
  }

  /** Each filter decodes to the logical query it stands for: the list is unambiguous. */
  lemma {:induction false} ApiFiltersDecode(rrn: string, records: seq<TxnLogDetails>)
    ensures |ApiFilters(rrn, records)| == |ApiQueries(rrn, records)|
    ensures forall i :: 0 <= i < |ApiFilters(rrn, records)| ==>
              ParseApiFilter(ApiFilters(rrn, records)[i]) == Some(ApiQueries(rrn, records)[i])
  {
    var fs := ApiFilters(rrn, records);
    var qs := ApiQueries(rrn, records);
    forall i | 0 <= i < |fs|
      ensures ParseApiFilter(fs[i]) == Some(qs[i])
    {
      ApiFilterRoundTrip(qs[i]);
    }
  }
}
