/**
  The toast notification every page shows its outcomes with. Only its content
  is modelled; how and for how long it is displayed is presentation.
*/
module Toasts {
  /** A toast notification: title, description and whether it is destructive. */
  datatype Toast = Toast(title: string, description: string, destructive: bool)
}
