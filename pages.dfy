/** `prepare_page`: which page a request ends on, given how configuration and the page body went. */
module Pages {
  import opened Wrappers
  import opened Connection
  import opened Configuration

  /** The templates a failure can select. */
  datatype View = UnconfiguredView | ReadErrorView | WriteErrorView

  /** How the wrapped page body ended. */
  datatype PageRun<+T> =
    | Completed(response: T)
    | RaisedNoConnection(failure: NoConnectionEstablished)
    /** Any other exception, by name: an OperationalError or ProgrammingError from
        `get_values`, or the TypeError of `insert(None)`. */
    | RaisedOther(exception: string)

  /** What the wrapper returns: the page's own response, an error page with the message
      it shows, or an exception that leaves the wrapper uncaught. */
  datatype Response<+T> =
    | PageResponse(response: T)
    | ErrorPage(view: View, error: string)
    | Uncaught(exception: string)

  /** `prepare_page(page)` applied to one request. */
  function PreparePage<T>(config: Result<ConnectionInfo, NoConnectionInfo>, page: ConnectionInfo -> PageRun<T>): (r: Response<T>)
    ensures config.Err? ==> r == ErrorPage(UnconfiguredView, "")
    ensures config.Ok? && page(config.value).Completed? ==> r == PageResponse(page(config.value).response)
    ensures config.Ok? && page(config.value).RaisedOther? ==> r == Uncaught(page(config.value).exception)
    ensures config.Ok? && page(config.value).RaisedNoConnection? ==>
      var failure := page(config.value).failure;
      r.ErrorPage? && r.error == failure.error &&
      (r.view == WriteErrorView <==> failure.connectionInfo.master) &&
      (r.view == ReadErrorView <==> !failure.connectionInfo.master)
  {
    match config
    case Err(_) => ErrorPage(UnconfiguredView, "")
    case Ok(info) =>
      match page(info)
      case Completed(response) => PageResponse(response)
      case RaisedOther(exception) => Uncaught(exception)
      case RaisedNoConnection(failure) =>
        ErrorPage(if failure.connectionInfo.master then WriteErrorView else ReadErrorView, failure.error)
  }

  /** An error page is shown only for missing configuration or a failed connect, and the
      unconfigured view only for missing configuration. */
  lemma ErrorPageCause<T>(config: Result<ConnectionInfo, NoConnectionInfo>, page: ConnectionInfo -> PageRun<T>)
    ensures PreparePage(config, page).ErrorPage? <==> config.Err? || page(config.value).RaisedNoConnection?
    ensures PreparePage(config, page) == ErrorPage(UnconfiguredView, "") <==> config.Err?
  {
  }
}
