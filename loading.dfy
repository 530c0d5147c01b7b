/**
 * The observable steps of an asynchronous handler that shows a loading
 * indicator: each write of the loading flag and the store of the handler's
 * result, in the order they happen.
 */
module Loading {

  datatype LoadEvent = SetLoading(on: bool) | Stored

  /** The steps of one completed handler run: raise the flag, store the result, lower the flag. */
  const RaiseStoreLower: seq<LoadEvent> := [SetLoading(true), Stored, SetLoading(false)]
}
