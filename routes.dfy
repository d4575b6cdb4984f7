/** The six business endpoints. Each handler is a fixed chain of checks that
    either answers at once with a status code or delegates to a service
    function; the service itself is not modelled, only whether it reports
    success. A handler is modelled as the status it answers and the service
    call it makes, if any. */
module Routes {
  import opened Opt
  import opened Utils

  /** The `file` part of a multipart upload. */
  datatype Upload = NoFilePart | FilePart(filename: string)

  /** A query-string argument read with `type=int`: absent, present but not
      an integer, or an integer. */
  datatype QueryArg = Missing | Malformed | IntArg(n: int)

  /** The service functions a handler may delegate to, with the arguments it
      passes. */
  datatype ServiceCall =
    | ProcessExcelFile(filename: string)
    | SaveTransaction(data: Json)
    | GetTransactions(page: int, perPage: int)
    | GetTransactionDetails(id: string)
    | ApproveTransaction(id: string)
    | RejectTransaction(id: string)

  /** The error a handler answers with on its own, before any service call. */
  datatype RouteError = NoFilePartError | NoFileSelected | InvalidFileType | NoDataProvided

  /** The answer of a handler: its status, the error it raised itself (`None`
      when the body is the service's result) and the service call made. */
  datatype RouteOutcome = RouteOutcome(status: int, error: Option<RouteError>, call: Option<ServiceCall>)

  /** The answer after delegating: the service's result with 200 on success
      and `failure` otherwise. */
  function Delegated(call: ServiceCall, succeeded: bool, failure: int): RouteOutcome {
    RouteOutcome(if succeeded then 200 else failure, None, Some(call))
  }

  /** `process-excel`: no file part, then an empty file name, then the
      extension check; only then is the spreadsheet processed. */
  function ProcessExcel(upload: Upload, succeeded: bool): (r: RouteOutcome)
    ensures upload.NoFilePart? ==> r == RouteOutcome(400, Some(NoFilePartError), None)
    ensures upload.FilePart? && upload.filename == "" ==> r == RouteOutcome(400, Some(NoFileSelected), None)
    ensures r.call.Some? <==> upload.FilePart? && AllowedFile(upload.filename)
    ensures upload.FilePart? && upload.filename != "" && !AllowedFile(upload.filename) ==>
              r == RouteOutcome(400, Some(InvalidFileType), None)
    ensures r.call.Some? ==> r.call.value == ProcessExcelFile(upload.filename)
    ensures r.status == 200 <==> r.call.Some? && succeeded
    ensures r.status != 200 ==> r.status == 400
  {
    match upload
    case NoFilePart => RouteOutcome(400, Some(NoFilePartError), None)
    case FilePart(filename) =>
      if filename == "" then RouteOutcome(400, Some(NoFileSelected), None)
      else if AllowedFile(filename) then Delegated(ProcessExcelFile(filename), succeeded, 400)
      else RouteOutcome(400, Some(InvalidFileType), None)
  }

  /** `submit-transaction`: a missing or empty body is refused before
      anything is saved; a failed save answers 500. */
  function SubmitTransaction(data: Json, succeeded: bool): (r: RouteOutcome)
    ensures !Truthy(data) ==> r == RouteOutcome(400, Some(NoDataProvided), None)
    ensures r.call.Some? <==> Truthy(data)
    ensures r.call.Some? ==> r.call.value == SaveTransaction(data)
    ensures r.call.Some? ==> r.status == (if succeeded then 200 else 500)
  {
    if !Truthy(data) then RouteOutcome(400, Some(NoDataProvided), None)
    else Delegated(SaveTransaction(data), succeeded, 500)
  }

  /** `request.args.get(name, default, type=int)`: an absent or malformed
      argument reads as the default. */
  function ArgOr(a: QueryArg, default: int): (n: int)
    ensures a.IntArg? ==> n == a.n
    ensures !a.IntArg? ==> n == default
  {
    if a.IntArg? then a.n else default
  }

  /** The transaction list: page 1 and 30 per page unless given; a failure
      answers 500. */
  function ListTransactions(page: QueryArg, perPage: QueryArg, succeeded: bool): (r: RouteOutcome)
    ensures r.call.Some? && r.call.value.GetTransactions?
    ensures !page.IntArg? ==> r.call.value.page == 1
    ensures !perPage.IntArg? ==> r.call.value.perPage == 30
    ensures page.IntArg? ==> r.call.value.page == page.n
    ensures perPage.IntArg? ==> r.call.value.perPage == perPage.n
    ensures r.status == (if succeeded then 200 else 500) && r.error.None?
  {
    Delegated(GetTransactions(ArgOr(page, 1), ArgOr(perPage, 30)), succeeded, 500)
  }

  /** One transaction with its line items; a failure answers 404. */
  function TransactionDetails(id: string, succeeded: bool): (r: RouteOutcome)
    ensures r.call == Some(GetTransactionDetails(id)) && r.error.None?
    ensures r.status == (if succeeded then 200 else 404)
  {
    Delegated(GetTransactionDetails(id), succeeded, 404)
  }

  /** Approving a transaction; a failure answers 500. */
  function Approve(id: string, succeeded: bool): (r: RouteOutcome)
    ensures r.call == Some(ApproveTransaction(id)) && r.error.None?
    ensures r.status == (if succeeded then 200 else 500)
  {
    Delegated(ApproveTransaction(id), succeeded, 500)
  }

  /** Rejecting a transaction; a failure answers 500. */
  function Reject(id: string, succeeded: bool): (r: RouteOutcome)
    ensures r.call == Some(RejectTransaction(id)) && r.error.None?
    ensures r.status == (if succeeded then 200 else 500)
  {
    Delegated(RejectTransaction(id), succeeded, 500)
  }

  // ---------------------------------------------------------------------
  // All six endpoints together
  // ---------------------------------------------------------------------

  datatype Request =
    | ProcessExcelRequest(upload: Upload)
    | SubmitTransactionRequest(data: Json)
    | ListTransactionsRequest(page: QueryArg, perPage: QueryArg)
    | TransactionDetailsRequest(id: string)
    | ApproveRequest(id: string)
    | RejectRequest(id: string)

  function Handle(req: Request, succeeded: bool): RouteOutcome {
    match req
    case ProcessExcelRequest(upload) => ProcessExcel(upload, succeeded)
    case SubmitTransactionRequest(data) => SubmitTransaction(data, succeeded)
    case ListTransactionsRequest(page, perPage) => ListTransactions(page, perPage, succeeded)
    case TransactionDetailsRequest(id) => TransactionDetails(id, succeeded)
    case ApproveRequest(id) => Approve(id, succeeded)
    case RejectRequest(id) => Reject(id, succeeded)
  }

  /** The status each endpoint answers when its service reports failure. */
  function FailureStatus(req: Request): (code: int)
    ensures code in {400, 404, 500}
    ensures code == 404 <==> req.TransactionDetailsRequest?
    ensures code == 400 <==> req.ProcessExcelRequest?
  {
    match req
    case ProcessExcelRequest(_) => 400
    case TransactionDetailsRequest(_) => 404
    case _ => 500
  }

  /** For every endpoint: the checks come before the service call, so whether
      and how the service is called does not depend on its outcome; a
      request that is answered without a call is answered the same whatever
      the service would have done; the answer is 200 exactly when the
      service was called and succeeded; and a failed call answers the
      endpoint's own failure status. */
  lemma HandlerShape(req: Request, succeeded: bool)
    ensures Handle(req, succeeded).call == Handle(req, !succeeded).call
    ensures Handle(req, succeeded).call.None? ==> Handle(req, succeeded) == Handle(req, !succeeded)
    ensures Handle(req, succeeded).status == 200 <==> Handle(req, succeeded).call.Some? && succeeded
    ensures Handle(req, succeeded).call.Some? && !succeeded ==> Handle(req, succeeded).status == FailureStatus(req)
    ensures Handle(req, succeeded).call.None? ==> Handle(req, succeeded).status == 400
  {
  }
}
