/**
 The Blaze array constructors: `array`, `_fromiter`, `zeros`, `ones` and `open`.
 Each is a first-match decision over the kind of input object and the keys of
 the capabilities dictionary, ending in one call into a storage engine (NumPy
 or BLZ) whose result is wrapped in a data descriptor and then in an array.
 The engines are not modelled: a `Store` records which engine call was made
 and with which arguments.
 */
module Constructors {
  import opened Wrappers
  import opened Datashape

  /** The kinds of object `array` tells apart, each with an opaque identity. */
  datatype Obj =
    | Descriptor(id: nat)  // already implements IDataDescriptor
    | NdArray(id: nat)     // a NumPy ndarray
    | BArray(id: nat)      // a blz.barray
    | Generator(id: nat)   // a Python generator
    | Other(id: nat)       // any other array-like value or scalar

  /** The `dshape` argument: None, a string to be parsed, or a parsed datashape. */
  datatype DShapeArg = NoDShape | Text(text: string) | Parsed(ds: DShape)

  /** The capabilities dictionary; only its keys are ever consulted. */
  type Caps = map<string, bool>

  const EfficientWrite: string := "efficient-write"
  const Compress: string := "compress"

  /** The default `caps` argument of `array`, `zeros` and `ones`. */
  const DefaultCaps: Caps := map[EfficientWrite := true]

  /** The two storage engines: NumPy (efficient writes) and BLZ (compression). */
  datatype Engine = NumPy | BLZ

  datatype FillValue = Zero | One

  /** The engine call that produced a store, with the arguments it was given. */
  datatype Store =
    | Wrapped(source: Obj)                                          // an existing ndarray or barray
    | Coerced(source: Obj, dtype: Option<DType>)                    // np.array / blz.barray
    | Streamed(source: Obj, dtype: Option<DType>, count: Option<int>) // np.fromiter / blz.fromiter
    | Filled(shape: Option<seq<nat>>, dtype: Option<DType>, fill: FillValue) // np/blz zeros, ones

  /** A data descriptor: the caller's own one, or one built over an engine store. */
  datatype DataDescriptor = External(obj: Obj) | Backed(engine: Engine, store: Store)

  /** The `Array` wrapper returned by every constructor. */
  datatype BlazeArray = BlazeArray(dd: DataDescriptor)

  datatype Error =
    | TypeError(culprit: Obj)    // `array` recognised neither the object nor a capability
    | UnboundLocal               // `dd` is returned without having been assigned
    | NotImplemented             // `open`
    | ParseError(message: string)  // raised by the datashape parser
    | NotNumPyCompatible(ds: DShape) // raised by `to_numpy`

  datatype Result<+T> = Ok(value: T) | Err(error: Error)

  /** The datashape parser (`_dshape_builder`), which may raise. */
  type Parser = string -> Result<DShape>

  // ---------------------------------------------------------------------------
  // Capability policy

  /** The capability key that requests an engine. */
  function KeyOf(e: Engine): string {
    match e
    case NumPy => EfficientWrite
    case BLZ => Compress
  }

  /** Priority of an engine's key: lower is tested first. */
  function Rank(e: Engine): nat {
    match e
    case NumPy => 0
    case BLZ => 1
  }

  predicate Requested(caps: Caps, e: Engine) {
    KeyOf(e) in caps
  }

  /**
   The engine the capability chain selects: the requested engine of best rank,
   or None when no engine is requested.
   */
  function SelectEngine(caps: Caps): (r: Option<Engine>)
    ensures r.None? <==> forall e: Engine :: !Requested(caps, e)
    ensures r.Some? ==> Requested(caps, r.value)
    ensures r.Some? ==> forall e: Engine :: Requested(caps, e) ==> Rank(r.value) <= Rank(e)
  {
    if EfficientWrite in caps then
      assert Requested(caps, NumPy);
      Some(NumPy)
    else if Compress in caps then
      assert Requested(caps, BLZ);
      Some(BLZ)
    else None
  }

  // ---------------------------------------------------------------------------
  // Datashape normalisation and the arguments derived from it

  predicate IsStr(arg: DShapeArg) {
    arg.Text?
  }

  /** The value a normalised datashape stands for when passed on as an argument. */
  function AsArg(ds: Option<DShape>): DShapeArg {
    match ds
    case None => NoDShape
    case Some(d) => Parsed(d)
  }

  /** `dshape if not _is_str(dshape) else _dshape_builder(dshape)`. */
  function NormaliseDShape(arg: DShapeArg, parse: Parser): (r: Result<Option<DShape>>)
    ensures !IsStr(arg) ==> r.Ok? && AsArg(r.value) == arg
    ensures IsStr(arg) ==> (r.Ok? <==> parse(arg.text).Ok?)
    ensures IsStr(arg) && r.Ok? ==> r.value == Some(parse(arg.text).value)
    ensures IsStr(arg) && r.Err? ==> r.error == parse(arg.text).error
  {
    match arg
    case NoDShape => Ok(None)
    case Parsed(ds) => Ok(Some(ds))
    case Text(s) =>
      match parse(s)
      case Ok(ds) => Ok(Some(ds))
      case Err(e) => Err(e)
  }

  /** `dt = None if dshape is None else to_dtype(dshape)`. */
  function ElemType(ds: Option<DShape>): (dt: Option<DType>)
    ensures dt.None? <==> ds.None?
    ensures ds.Some? ==> dt.value == ToDtype(ds.value)
  {
    match ds
    case None => None
    case Some(d) => Some(ToDtype(d))
  }

  /** `shape, dt = (None, None) if dshape is None else to_numpy(dshape)`. */
  function FillParams(ds: Option<DShape>): (r: Result<(Option<seq<nat>>, Option<DType>)>)
    ensures ds.None? ==> r == Ok((None, None))
    ensures ds.Some? ==> (r.Ok? <==> AllFixed(ds.value.dims))
    ensures ds.Some? && r.Err? ==> r.error == NotNumPyCompatible(ds.value)
    ensures ds.Some? && r.Ok? ==>
      && r.value.0.Some? && |r.value.0.value| == |ds.value.dims|
      && (forall i :: 0 <= i < |ds.value.dims| ==> r.value.0.value[i] == ds.value.dims[i].n)
      && r.value.1 == Some(ToDtype(ds.value))
  {
    match ds
    case None => Ok((None, None))
    case Some(d) =>
      match ToNumpy(d)
      case None => Err(NotNumPyCompatible(d))
      case Some(p) => Ok((Some(p.shape), Some(p.dtype)))
  }

  /** The `count` argument each engine's build-from-iterator call receives. */
  function StreamCount(e: Engine): Option<int> {
    match e
    case NumPy => None
    case BLZ => Some(-1)
  }

  // ---------------------------------------------------------------------------
  // The constructors

  /** `_fromiter(gen, dshape, caps)`: build an array by consuming an iterator. */
  function FromIter(gen: Obj, dshape: DShapeArg, caps: Caps, parse: Parser): (r: Result<BlazeArray>)
    ensures NormaliseDShape(dshape, parse).Err? ==> r == Err(NormaliseDShape(dshape, parse).error)
    ensures NormaliseDShape(dshape, parse).Ok? && SelectEngine(caps).None? ==> r == Err(UnboundLocal)
    ensures NormaliseDShape(dshape, parse).Ok? && SelectEngine(caps).Some? ==>
      var e := SelectEngine(caps).value;
      r == Ok(BlazeArray(Backed(e, Streamed(gen, ElemType(NormaliseDShape(dshape, parse).value), StreamCount(e)))))
  {
    match NormaliseDShape(dshape, parse)
    case Err(err) => Err(err)
    case Ok(ds) =>
      if EfficientWrite in caps then
        var dt := ElemType(ds);
        Ok(BlazeArray(Backed(NumPy, Streamed(gen, dt, None))))
      else if Compress in caps then
        var dt := ElemType(ds);
        Ok(BlazeArray(Backed(BLZ, Streamed(gen, dt, Some(-1)))))
      else
        Err(UnboundLocal)
  }

  /** `array(obj, dshape, caps)`: build an in-memory Blaze array from `obj`. */
  function Array(obj: Obj, dshape: DShapeArg, caps: Caps, parse: Parser): (r: Result<BlazeArray>)
    ensures NormaliseDShape(dshape, parse).Err? ==> r == Err(NormaliseDShape(dshape, parse).error)
    ensures NormaliseDShape(dshape, parse).Ok? ==>
      && (obj.Descriptor? ==> r == Ok(BlazeArray(External(obj))))
      && (obj.NdArray? ==> r == Ok(BlazeArray(Backed(NumPy, Wrapped(obj)))))
      && (obj.BArray? ==> r == Ok(BlazeArray(Backed(BLZ, Wrapped(obj)))))
    ensures obj.Generator? ==> r == FromIter(obj, dshape, caps, parse)
    ensures NormaliseDShape(dshape, parse).Ok? && obj.Other? ==>
      match SelectEngine(caps)
      case None => r == Err(TypeError(obj))
      case Some(e) => r == Ok(BlazeArray(Backed(e, Coerced(obj, ElemType(NormaliseDShape(dshape, parse).value)))))
  {
    match NormaliseDShape(dshape, parse)
    case Err(err) => Err(err)
    case Ok(ds) =>
      match obj
      case Descriptor(_) => Ok(BlazeArray(External(obj)))
      case NdArray(_) => Ok(BlazeArray(Backed(NumPy, Wrapped(obj))))
      case BArray(_) => Ok(BlazeArray(Backed(BLZ, Wrapped(obj))))
      case Generator(_) => FromIter(obj, AsArg(ds), caps, parse)
      case Other(_) =>
        if EfficientWrite in caps then
          var dt := ElemType(ds);
          Ok(BlazeArray(Backed(NumPy, Coerced(obj, dt))))
        else if Compress in caps then
          var dt := ElemType(ds);
          Ok(BlazeArray(Backed(BLZ, Coerced(obj, dt))))
        else
          Err(TypeError(obj))
  }

  /** `zeros(dshape, caps)`: an array of the given datashape filled with zeros. */
  function Zeros(dshape: DShapeArg, caps: Caps, parse: Parser): (r: Result<BlazeArray>)
    ensures NormaliseDShape(dshape, parse).Err? ==> r == Err(NormaliseDShape(dshape, parse).error)
    ensures NormaliseDShape(dshape, parse).Ok? && SelectEngine(caps).None? ==> r == Err(UnboundLocal)
    ensures NormaliseDShape(dshape, parse).Ok? && SelectEngine(caps).Some? ==>
      var p := FillParams(NormaliseDShape(dshape, parse).value);
      && (p.Err? ==> r == Err(p.error))
      && (p.Ok? ==> r == Ok(BlazeArray(Backed(SelectEngine(caps).value, Filled(p.value.0, p.value.1, Zero)))))
  {
    match NormaliseDShape(dshape, parse)
    case Err(err) => Err(err)
    case Ok(ds) =>
      if EfficientWrite in caps then
        match FillParams(ds)
        case Err(err) => Err(err)
        case Ok((shape, dt)) => Ok(BlazeArray(Backed(NumPy, Filled(shape, dt, Zero))))
      else if Compress in caps then
        match FillParams(ds)
        case Err(err) => Err(err)
        case Ok((shape, dt)) => Ok(BlazeArray(Backed(BLZ, Filled(shape, dt, Zero))))
      else
        Err(UnboundLocal)
  }

  /** `ones(dshape, caps)`: an array of the given datashape filled with ones. */
  function Ones(dshape: DShapeArg, caps: Caps, parse: Parser): (r: Result<BlazeArray>)
    ensures NormaliseDShape(dshape, parse).Err? ==> r == Err(NormaliseDShape(dshape, parse).error)
    ensures NormaliseDShape(dshape, parse).Ok? && SelectEngine(caps).None? ==> r == Err(UnboundLocal)
    ensures NormaliseDShape(dshape, parse).Ok? && SelectEngine(caps).Some? ==>
      var p := FillParams(NormaliseDShape(dshape, parse).value);
      && (p.Err? ==> r == Err(p.error))
      && (p.Ok? ==> r == Ok(BlazeArray(Backed(SelectEngine(caps).value, Filled(p.value.0, p.value.1, One)))))
  {
    match NormaliseDShape(dshape, parse)
    case Err(err) => Err(err)
    case Ok(ds) =>
      if EfficientWrite in caps then
        match FillParams(ds)
        case Err(err) => Err(err)
        case Ok((shape, dt)) => Ok(BlazeArray(Backed(NumPy, Filled(shape, dt, One))))
      else if Compress in caps then
        match FillParams(ds)
        case Err(err) => Err(err)
        case Ok((shape, dt)) => Ok(BlazeArray(Backed(BLZ, Filled(shape, dt, One))))
      else
        Err(UnboundLocal)
  }

  /** `open(uri)`: a placeholder that always raises. */
  function Open(uri: string): (r: Result<BlazeArray>)
    ensures r.Err? && r.error == NotImplemented
  {
    Err(NotImplemented)
  }
}
