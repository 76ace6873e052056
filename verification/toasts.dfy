/**
 * The toasts the admin editors raise after an action: a title and a
 * description. Only their text is modelled, not their display.
 */
module Toasts {
  import opened Wrappers

  datatype Notice = Notice(title: string, description: string)

  /** The toast after a database call: the success text, or "Erreur" with
      the error's message. */
  function Outcome(serverError: Option<string>, success: string): (n: Notice)
    ensures serverError.None? ==> n == Notice("Succès", success)
    ensures serverError.Some? ==> n == Notice("Erreur", serverError.value)
  {
    if serverError.Some? then Notice("Erreur", serverError.value) else Notice("Succès", success)
  }
}
