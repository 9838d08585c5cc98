/** What a handler hands to the browser: toasts shown, and the abstract
    outcome of a `fetch` (the response body, a non-ok status, or a thrown
    error with its message). */
module UiEffects {
  datatype Toast = Toast(title: string, description: string, destructive: bool)

  datatype Response<+T> = Ok(body: T) | NotOk(status: int) | Thrown(message: string)
}
