/** Values that cross the renderer's IPC boundary.

    Every handler of the dashboard awaits one call on `window.electronAPI`.
    The model does not run the call: the handler receives how the call ended
    as a parameter. */
module Ipc {

  /** JavaScript's `null` / `undefined` next to a value. */
  datatype Option<+T> = None | Some(value: T)

  /** How an awaited IPC call ended: the promise resolved with a value, or
      it rejected. Reading a property of a null reply (`result.success` when
      `result` is null) throws inside the same `try`, so it is `Threw` too. */
  datatype Outcome<+T> = Resolved(value: T) | Threw

  /** The call resolved and its reply reports success (`result.success`
      truthy, or a `true` boolean reply). */
  predicate Confirmed(reply: Outcome<bool>) {
    reply.Resolved? && reply.value
  }
}
