/** The HTTP outcomes the routes of app.py produce. */
module Http {

  const StatusOk: int := 200
  const StatusNotFound: int := 404
  const StatusServerError: int := 500

  /** The context `list_directory` hands to the `tree.html` template. */
  datatype Tree = Tree(owner: string, repo: string, subpath: string, folders: seq<string>, files: seq<string>)

  /** What a route sends back to the browser. */
  datatype Response =
    | LoginRedirect        // a redirect to the OAuth blueprint's login entry point
    | Abort(status: int)   // the request is aborted with this HTTP status
    | Redirect(url: string)
    | Text(body: string)   // a plain string returned by the view
    | Page(tree: Tree)     // the tree.html template rendered with this context
}
