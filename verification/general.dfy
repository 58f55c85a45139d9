/**
  The dispatcher (src/general.js): `readObject` routes on the type tag of an
  object's envelope, registered readers first and the built-in DataFrame
  reader next; `saveObject` routes on the object's class, scanning the
  registered savers from the newest, then the built-in DataFrame saver.
*/
module General {
  import opened Wrappers
  import opened Failures
  import opened Container
  import opened Objects
  import opened FrameDecode
  import opened FrameEncode
  import RoundTrip

  /** A registered reader or saver, identified by name; what it does is not modelled. */
  datatype Handler = Handler(name: string)

  /** The files under the storage root: the parsed `OBJECT` envelopes and the containers,
      each by its full path. */
  datatype Store = Store(envelopes: map<string, Envelope>, files: map<string, Node>)

  /** What a read gives: the reader a registered handler was called with, or a DataFrame. */
  datatype Loaded =
    | ReadBy(reader: Handler, path: string, envelope: Envelope)
    | FrameLoaded(frame: Decoded)

  /** What a save does: call a registered saver, or write a DataFrame. */
  datatype Saving =
    | SavedBy(saver: Handler, path: string)
    | FrameSaved(saved: Saved)

  function EnvelopePath(path: string): string {
    path + "/OBJECT"
  }

  function ContainerPath(path: string): string {
    path + "/basic_contents.h5"
  }

  /** `readObjectFile`: the envelope stored at `path` (the JSON text itself is not modelled). */
  function ReadObjectFile(store: Store, path: string): (r: Result<Envelope, Failure>)
    ensures r.Ok? <==> EnvelopePath(path) in store.envelopes
  {
    if EnvelopePath(path) in store.envelopes then Ok(store.envelopes[EnvelopePath(path)])
    else Err(StorageFailure(EnvelopePath(path)))
  }

  /** The envelope `readObject` works from: the given metadata, or the stored envelope. */
  function LoadEnvelope(store: Store, path: string, metadata: Option<Envelope>): (r: Result<Envelope, Failure>)
    ensures metadata.Some? ==> r == Ok(metadata.value)
    ensures metadata.None? ==> r == ReadObjectFile(store, path)
  {
    if metadata.Some? then Ok(metadata.value) else ReadObjectFile(store, path)
  }

  /** What `saveDataFrame` leaves in the store: its envelope and its container. */
  function Write(store: Store, path: string, saved: Saved): (s: Store)
    ensures ReadObjectFile(s, path) == Ok(saved.envelope)
    ensures ContainerPath(path) in s.files && s.files[ContainerPath(path)] == saved.container
    ensures s.envelopes.Keys == store.envelopes.Keys + {EnvelopePath(path)}
    ensures s.files.Keys == store.files.Keys + {ContainerPath(path)}
    ensures forall p :: p in store.envelopes && p != EnvelopePath(path) ==> s.envelopes[p] == store.envelopes[p]
    ensures forall p :: p in store.files && p != ContainerPath(path) ==> s.files[p] == store.files[p]
  {
    Store(store.envelopes[EnvelopePath(path) := saved.envelope],
          store.files[ContainerPath(path) := saved.container])
  }

  /** `x instanceof DataFrame`: the object carries a DataFrame's contents. */
  predicate IsDataFrame(x: Obj) {
    x.body.FrameBody?
  }

  /** An object's class list names `DataFrame` exactly when it carries a DataFrame's
      contents, as it does for every object the library builds. */
  predicate ClassesAgree(x: Obj) {
    InstanceOf(x, "DataFrame") <==> IsDataFrame(x)
  }

  /** The newest registration whose class `x` is an instance of. */
  function LastMatch(savers: seq<(string, Handler)>, x: Obj): (m: Option<nat>)
    ensures m.Some? ==> m.value < |savers|
  {
    if |savers| == 0 then None
    else if InstanceOf(x, savers[|savers| - 1].0) then Some(|savers| - 1)
    else LastMatch(savers[..|savers| - 1], x)
  }

  /** `LastMatch` picks a matching registration with no matching registration after it,
      and finds none only when no registration matches. */
  lemma {:induction false} LastMatchNewest(savers: seq<(string, Handler)>, x: Obj)
    ensures var m := LastMatch(savers, x);
      (m.Some? ==> m.value < |savers| && InstanceOf(x, savers[m.value].0) &&
                   forall j :: m.value < j < |savers| ==> !InstanceOf(x, savers[j].0))
      && (m.None? ==> forall j :: 0 <= j < |savers| ==> !InstanceOf(x, savers[j].0))
  {
    if |savers| > 0 {
      var n := |savers| - 1;
      LastMatchNewest(savers[..n], x);
      assert forall j :: 0 <= j < n ==> savers[..n][j] == savers[j];
    }
  }

  /** A saver registered later for a class of `x` takes over; one for a class `x` does not
      belong to changes nothing for `x`. */
  lemma RegistrationShadows(savers: seq<(string, Handler)>, cls: string, h: Handler, x: Obj)
    ensures InstanceOf(x, cls) ==> LastMatch(savers + [(cls, h)], x) == Some(|savers|)
    ensures !InstanceOf(x, cls) ==> LastMatch(savers + [(cls, h)], x) == LastMatch(savers, x)
  {
    assert (savers + [(cls, h)])[..|savers|] == savers;
  }

  class Registries {
    /** `readObject_registry`: a reader per type tag. */
    var readers: map<string, Handler>
    /** `saveObject_registry`: class and saver pairs in registration order. */
    var savers: seq<(string, Handler)>

    constructor ()
      ensures readers == map[] && savers == []
    {
      readers := map[];
      savers := [];
    }

    method RegisterReader(tag: string, reader: Handler)
      modifies this
      ensures readers == old(readers)[tag := reader] && savers == old(savers)
    {
      readers := readers[tag := reader];
    }

    method RegisterSaver(cls: string, saver: Handler)
      modifies this
      ensures savers == old(savers) + [(cls, saver)] && readers == old(readers)
    {
      savers := savers + [(cls, saver)];
    }

    /** `readObject`: the envelope is `metadata` when given and is read from the store
        otherwise; a registered reader for its tag wins over the built-in DataFrame reader;
        any other tag is unsupported. */
    function ReadObject(store: Store, path: string, metadata: Option<Envelope>, text: seq<int> -> string)
      : (r: Result<Loaded, Failure>)
      reads this
      ensures metadata.None? && ReadObjectFile(store, path).Err? ==> r == Err(ReadObjectFile(store, path).error)
      ensures var env := LoadEnvelope(store, path, metadata);
        env.Ok? && env.value.tag in readers ==> r == Ok(ReadBy(readers[env.value.tag], path, env.value))
      ensures var env := LoadEnvelope(store, path, metadata);
        env.Ok? && env.value.tag !in readers && env.value.tag != "data_frame" ==> r == Err(UnsupportedType(env.value.tag))
      ensures var env := LoadEnvelope(store, path, metadata);
        env.Ok? && env.value.tag == "data_frame" && "data_frame" !in readers && ContainerPath(path) !in store.files ==>
          r == Err(StorageFailure(ContainerPath(path)))
      ensures var env := LoadEnvelope(store, path, metadata);
        env.Ok? && env.value.tag == "data_frame" && "data_frame" !in readers && ContainerPath(path) in store.files ==>
          r == (match DecodeFrame(path, store.files[ContainerPath(path)], text)
                case Ok(frame) => Ok(FrameLoaded(frame))
                case Err(e) => Err(e))
      ensures r.Ok? && r.value.ReadBy? ==>
                r.value.envelope.tag in readers && r.value.reader == readers[r.value.envelope.tag] && r.value.path == path
      ensures r.Ok? && r.value.FrameLoaded? ==>
                var env := LoadEnvelope(store, path, metadata);
                env.Ok? && env.value.tag == "data_frame" && "data_frame" !in readers &&
                ContainerPath(path) in store.files &&
                DecodeFrame(path, store.files[ContainerPath(path)], text) == Ok(r.value.frame)
      ensures r.Err? && r.error.UnsupportedType? ==> r.error.tag !in readers && r.error.tag != "data_frame"
    {
      var envelope :- LoadEnvelope(store, path, metadata);
      var tag := envelope.tag;
      if tag in readers then Ok(ReadBy(readers[tag], path, envelope))
      else if tag == "data_frame" then
        if ContainerPath(path) !in store.files then Err(StorageFailure(ContainerPath(path)))
        else
          var frame :- DecodeFrame(path, store.files[ContainerPath(path)], text);
          Ok(FrameLoaded(frame))
      else Err(UnsupportedType(tag))
    }

    /** The scan of src/general.js:32-38, from the newest registration down. */
    method FindSaver(x: Obj) returns (idx: Option<nat>)
      ensures idx == LastMatch(savers, x)
      ensures idx.Some? ==> idx.value < |savers| && InstanceOf(x, savers[idx.value].0)
      ensures idx.Some? ==> forall j :: idx.value < j < |savers| ==> !InstanceOf(x, savers[j].0)
      ensures idx.None? ==> forall j :: 0 <= j < |savers| ==> !InstanceOf(x, savers[j].0)
    {
      var i := |savers|;
      assert savers[..i] == savers;
      while i > 0
        invariant 0 <= i <= |savers|
        invariant LastMatch(savers, x) == LastMatch(savers[..i], x)
        invariant forall j :: i <= j < |savers| ==> !InstanceOf(x, savers[j].0)
      {
        if InstanceOf(x, savers[i - 1].0) {
          LastMatchNewest(savers, x);
          return Some(i - 1);
        }
        assert savers[..i][..i - 1] == savers[..i - 1];
        i := i - 1;
      }
      LastMatchNewest(savers, x);
      idx := None;
    }

    /** What `saveObject` does with `x`. */
    function SaveSpec(x: Obj, path: string): (r: Result<Saving, Failure>)
      reads this
      requires ClassesAgree(x)
      requires IsDataFrame(x) ==> WellFormed(x.body.frame)
    {
      match LastMatch(savers, x)
      case Some(k) => Ok(SavedBy(savers[k].1, path))
      case None =>
        if IsDataFrame(x) then Ok(FrameSaved(EncodeFrame(x.body.frame, path)))
        else Err(UnsupportedObject(x.constructorName))
    }

    /** `saveObject`: the newest registered saver for a class of `x`, else the DataFrame
        saver, else an error naming the constructor. The DataFrame class keeps one name
        per column, which the requirement states. */
    method SaveObject(x: Obj, path: string) returns (r: Result<Saving, Failure>)
      requires ClassesAgree(x)
      requires IsDataFrame(x) ==> WellFormed(x.body.frame)
      ensures r == SaveSpec(x, path)
      ensures r.Ok? && r.value.SavedBy? ==> exists j :: 0 <= j < |savers| && InstanceOf(x, savers[j].0)
      ensures r.Ok? && r.value.FrameSaved? ==> IsDataFrame(x) && InstanceOf(x, "DataFrame")
      ensures r.Err? <==> !IsDataFrame(x) && forall j :: 0 <= j < |savers| ==> !InstanceOf(x, savers[j].0)
      ensures r.Err? ==> r.error == UnsupportedObject(x.constructorName)
    {
      var idx := FindSaver(x);
      if idx.Some? {
        return Ok(SavedBy(savers[idx.value].1, path));
      }
      if IsDataFrame(x) {
        var saved := SaveDataFrame(x.body.frame, path);
        return Ok(FrameSaved(saved));
      }
      r := Err(UnsupportedObject(x.constructorName));
    }

    /** Corollary of `ReadObject`'s contract: a registered reader for a tag wins over the
        built-in reader for that tag. */
    lemma RegisteredReaderWins(store: Store, path: string, envelope: Envelope, text: seq<int> -> string)
      requires envelope.tag in readers
      ensures ReadObject(store, path, Some(envelope), text) == Ok(ReadBy(readers[envelope.tag], path, envelope))
    {
    }

    /** Saving a DataFrame through the dispatcher and reading it back from the same path
        gives its names, row count, row names and columns, when no registered saver or
        reader takes DataFrames over. */
    lemma DispatchRoundTrip(store: Store, x: Obj, path: string, text: seq<int> -> string)
      requires ClassesAgree(x) && IsDataFrame(x) && WellFormed(x.body.frame)
      requires LastMatch(savers, x).None? && "data_frame" !in readers
      ensures SaveSpec(x, path).Ok? && SaveSpec(x, path).value.FrameSaved?
      ensures var f := x.body.frame;
        ReadObject(Write(store, path, SaveSpec(x, path).value.saved), path, None, text) ==
          Ok(FrameLoaded(Decoded(f.names, RoundTrip.ExpectedColumns(f.columns, path), f.rowCount, f.rowNames)))
    {
      RoundTrip.FrameRoundTrip(x.body.frame, path, text);
    }
  }
}
