/** Why a refresh was asked for. Presentation only; when requests coalesce, a visible
    one takes precedence. */
module Refresh {
  datatype Purpose = Reconcile | Visible

  function Max(a: Purpose, b: Purpose): Purpose {
    if a == Visible then a else b
  }
}
