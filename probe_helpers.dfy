/** probe/helpers.go: the context fallback, the default status expectation
    (the 2xx Successful class of section 15.3 of RFC 9110) and the error for
    a missing collaborator. */
module ProbeHelpers {
  import opened Wrappers
  import opened GoStd

  /** contextOrBackground: a nil context (`None`) becomes the background one. */
  function ContextOrBackground(ctx: Option<Context>): (c: Context)
    ensures ctx.Some? ==> c == ctx.value
    ensures ctx.None? ==> c == Background
  {
    if ctx.Some? then ctx.value else Background
  }

  /** defaultHTTPStatusExpectation: the status is a 2xx success code. */
  predicate DefaultHTTPStatusExpectation(status: int) {
    status >= 200 && status < 300
  }

  /** The accepted codes are exactly the hundred from 200 to 299. */
  lemma DefaultExpectationIsSuccessClass(status: int)
    ensures DefaultHTTPStatusExpectation(status) <==> status / 100 == 2
  {
  }

  /** The boundaries of the range: 199 and 300 fail, 200 and 299 pass. */
  lemma DefaultExpectationBoundaries()
    ensures !DefaultHTTPStatusExpectation(199) && DefaultHTTPStatusExpectation(200)
    ensures DefaultHTTPStatusExpectation(299) && !DefaultHTTPStatusExpectation(300)
  {
  }

  /** nilComponentError: "<name> probe: <component> is nil". */
  function NilComponentError(name: string, component: string): (e: Error)
    ensures e.New? && Unwrap(e).None?
    ensures Text(e) == name + " probe: " + component + " is nil"
  {
    New(name + " probe: " + component + " is nil")
  }
}
