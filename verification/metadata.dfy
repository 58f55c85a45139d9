/**
  Annotated metadata (src/metadata.js): optional side objects read through a
  per-option override or the dispatcher, and saved only when non-empty.
*/
module Metadata {
  import opened Wrappers
  import opened Failures
  import opened Objects
  import opened General

  /** The value of `options[optname]`: `false`, `true`, or a reader function. */
  datatype OptionSetting = SetFalse | SetTrue | SetReader(reader: Handler)

  /** What `readAnnotatedMetadata` gives: nothing (`{}`), the override called with the path
      and the stored envelope, or whatever the dispatcher reads. */
  datatype Annotated =
    | NothingRead
    | Overridden(reader: Handler, path: string, envelope: Envelope)
    | ReadGeneric(loaded: Loaded)

  /** `readAnnotatedMetadata`: nothing when the path does not exist or the option is `false`;
      the option's own reader when it is a function; the dispatcher when the option is
      `true` or absent. Whether the path exists is given, as the file system answers it. */
  function ReadAnnotatedMetadata(reg: Registries, store: Store, path: string, pathExists: bool,
                                 options: map<string, OptionSetting>, optname: string, text: seq<int> -> string)
    : (r: Result<Annotated, Failure>)
    reads reg
    ensures !pathExists ==> r == Ok(NothingRead)
    ensures pathExists && optname in options && options[optname] == SetFalse ==> r == Ok(NothingRead)
    ensures r == Ok(NothingRead) ==> !pathExists || (optname in options && options[optname] == SetFalse)
    ensures r.Ok? && r.value.Overridden? ==>
              optname in options && options[optname] == SetReader(r.value.reader) && r.value.path == path &&
              ReadObjectFile(store, path) == Ok(r.value.envelope)
    ensures pathExists && optname in options && options[optname].SetReader? ==>
              r == (match ReadObjectFile(store, path)
                    case Ok(envelope) => Ok(Overridden(options[optname].reader, path, envelope))
                    case Err(e) => Err(e))
    ensures pathExists && (optname !in options || options[optname] == SetTrue) ==>
              r == (match reg.ReadObject(store, path, None, text)
                    case Ok(loaded) => Ok(ReadGeneric(loaded))
                    case Err(e) => Err(e))
  {
    if !pathExists then Ok(NothingRead)
    else if optname in options && options[optname] == SetFalse then Ok(NothingRead)
    else if optname in options && options[optname].SetReader? then
      var envelope :- ReadObjectFile(store, path);
      Ok(Overridden(options[optname].reader, path, envelope))
    else
      var loaded :- reg.ReadObject(store, path, None, text);
      Ok(ReadGeneric(loaded))
  }

  /** `saveAnnotatedMetadata`: an object of length zero is not saved; anything else goes to
      the dispatcher. */
  method SaveAnnotatedMetadata(reg: Registries, x: Obj, length: nat, path: string)
    returns (r: Result<Option<Saving>, Failure>)
    requires ClassesAgree(x)
    requires IsDataFrame(x) ==> WellFormed(x.body.frame)
    ensures length == 0 ==> r == Ok(None)
    ensures length > 0 ==> r == (match reg.SaveSpec(x, path)
                                 case Ok(s) => Ok(Some(s))
                                 case Err(e) => Err(e))
    ensures r.Ok? && r.value.None? ==> length == 0
  {
    if length == 0 {
      return Ok(None);
    }
    var saving :- reg.SaveObject(x, path);
    r := Ok(Some(saving));
  }

  /** Corollary of `ReadAnnotatedMetadata`'s contract: when the option is `false` or a
      reader function, the result does not depend on what the registries hold. */
  lemma OptionBypassesRegistries(reg1: Registries, reg2: Registries, store: Store, path: string, pathExists: bool,
                                 options: map<string, OptionSetting>, optname: string, text: seq<int> -> string)
    requires optname in options && options[optname] != SetTrue
    ensures ReadAnnotatedMetadata(reg1, store, path, pathExists, options, optname, text) ==
            ReadAnnotatedMetadata(reg2, store, path, pathExists, options, optname, text)
  {
  }
}
