/**
 * The notifications the dashboard's delete actions raise: a title, a
 * description, and whether the toast is the destructive (error) variant.
 */
module Toasts {
  datatype Toast = Toast(title: string, description: string, destructive: bool)

  const FallbackMessage: string := "Something went wrong. Please try again."

  /** `error.message || "Something went wrong. Please try again."`: an empty message is falsy. */
  function ErrorText(message: string): (r: string)
    ensures r != []
    ensures message != [] ==> r == message
    ensures message == [] ==> r == FallbackMessage
  {
    if message != [] then message else FallbackMessage
  }
}
