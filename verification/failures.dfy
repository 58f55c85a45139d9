/**
  The errors the core raises. Each carries the fields the source's error
  message interpolates; the message text itself is not modelled.
*/
module Failures {

  datatype Failure =
      /** The storage layer could not give what was asked: a missing group,
          dataset, attribute or envelope, or a stored value of an unexpected kind. */
    | StorageFailure(what: string)
      /** A column dataset or group whose `type` attribute is not recognised
          (src/DataFrame.js:105, 185). */
    | UnknownColumnType(column: string, path: string)
      /** A column child that is neither a dataset nor a group (src/DataFrame.js:189). */
    | UnknownColumnKind(column: string, path: string)
      /** An object-level type tag no reader handles (src/general.js:25). */
    | UnsupportedType(tag: string)
      /** An in-memory object no saver handles, named by its constructor (src/general.js:45). */
    | UnsupportedObject(constructorName: string)
}
