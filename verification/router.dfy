/** What the pages hand to `router.push`: a path name and a query record. */
module Router {
  import opened Wrappers
  import opened Text
  import opened JsValue

  datatype Push = Push(pathname: string, query: seq<Prop>)

  /** The page both finder blocks send their searches to. */
  const SearchPath := "/vehicle-search"

  /**
   * `onSubmitVin` of both finder blocks: nothing happens for a blank input; otherwise the
   * search page is opened with the input, trimmed, as `vin`.
   */
  function VinSearch(input: string): (r: Option<Push>)
    ensures r.None? <==> AllSpace(input)
    ensures r.Some? ==> r.value == Push(SearchPath, [Prop("vin", Str(Trim(input)))])
  {
    TrimEmptyIffAllSpace(input);
    if Trim(input) == "" then None
    else Some(Push(SearchPath, [Prop("vin", Str(Trim(input)))]))
  }
}
