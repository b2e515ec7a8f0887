/** Values the interface passes around without looking inside them. */
module Objects {

  datatype Option<T> = None | Some(value: T)

  /** Identity of a JavaScript object. Structural identities stand for the
      two ways the interface creates objects of its own. */
  datatype Obj =
    | Host(id: nat)                         // an object made outside the interface: a stream, a console
    | Delegate(proto: Obj)                  // `Object.create(proto)`: a fresh object inheriting from proto
    | ConsoleOver(stdout: Obj, stderr: Obj) // `new console.Console(stdout, stderr)`

  /** Identity of a callback function supplied by client code. */
  type Callback = nat
}
