/**
 Properties of the constructors that relate several calls: which inputs the
 capabilities cannot influence, that only the keys of the capabilities
 dictionary matter, that normalising a datashape twice changes nothing, how
 `zeros` and `ones` mirror each other, and what every successful result looks
 like.
 */
module ConstructorProperties {
  import opened Wrappers
  import opened Datashape
  import opened Constructors

  /** Normalisation leaves an already-normalised datashape alone, whatever the parser. */
  lemma NormaliseIdempotent(arg: DShapeArg, parse: Parser, parse': Parser)
    requires NormaliseDShape(arg, parse).Ok?
    ensures NormaliseDShape(AsArg(NormaliseDShape(arg, parse).value), parse') == NormaliseDShape(arg, parse)
  {
  }

  /**
   For a descriptor, an ndarray or a barray, `array` gives the same result for
   any two capability dictionaries, the empty one included.
   */
  lemma KindBeforeCaps(obj: Obj, dshape: DShapeArg, caps: Caps, caps': Caps, parse: Parser)
    requires obj.Descriptor? || obj.NdArray? || obj.BArray?
    ensures Array(obj, dshape, caps, parse) == Array(obj, dshape, caps', parse)
  {
  }

  /** Only the keys of the capabilities dictionary matter, never their values. */
  lemma KeyPresenceOnly(obj: Obj, dshape: DShapeArg, caps: Caps, caps': Caps, parse: Parser)
    requires caps.Keys == caps'.Keys
    ensures SelectEngine(caps) == SelectEngine(caps')
    ensures Array(obj, dshape, caps, parse) == Array(obj, dshape, caps', parse)
    ensures FromIter(obj, dshape, caps, parse) == FromIter(obj, dshape, caps', parse)
    ensures Zeros(dshape, caps, parse) == Zeros(dshape, caps', parse)
    ensures Ones(dshape, caps, parse) == Ones(dshape, caps', parse)
  {
  }

  /** With both capability keys present, `array` and `_fromiter` coerce or stream with NumPy. */
  lemma EfficientWriteWins(obj: Obj, dshape: DShapeArg, caps: Caps, parse: Parser)
    requires EfficientWrite in caps && Compress in caps
    requires obj.Generator? || obj.Other?
    ensures Array(obj, dshape, caps, parse).Ok? ==> Array(obj, dshape, caps, parse).value.dd.engine == NumPy
    ensures FromIter(obj, dshape, caps, parse).Ok? ==> FromIter(obj, dshape, caps, parse).value.dd.engine == NumPy
  {
  }

  /** With both capability keys present, `zeros` and `ones` allocate with NumPy. */
  lemma EfficientWriteWinsFill(dshape: DShapeArg, caps: Caps, parse: Parser)
    requires EfficientWrite in caps && Compress in caps
    ensures Zeros(dshape, caps, parse).Ok? ==> Zeros(dshape, caps, parse).value.dd.engine == NumPy
    ensures Ones(dshape, caps, parse).Ok? ==> Ones(dshape, caps, parse).value.dd.engine == NumPy
  {
  }

  /**
   An explicit datashape does not reach a descriptor, an ndarray or a barray:
   `array` wraps them the same way whatever parsed datashape it is given.
   */
  lemma DShapeIgnoredWhenWrapping(obj: Obj, d1: DShape, d2: DShape, caps: Caps, parse: Parser)
    requires obj.Descriptor? || obj.NdArray? || obj.BArray?
    ensures Array(obj, Parsed(d1), caps, parse) == Array(obj, Parsed(d2), caps, parse)
  {
  }

  /**
   Of an explicit datashape, only its element type reaches the engine that
   coerces an object: datashapes that differ only in their dimensions give
   the same array.
   */
  lemma OnlyMeasureReachesEngine(obj: Obj, d1: DShape, d2: DShape, caps: Caps, parse: Parser)
    requires obj.Other?
    requires d1.measure == d2.measure
    ensures Array(obj, Parsed(d1), caps, parse) == Array(obj, Parsed(d2), caps, parse)
  {
  }

  /** The default capabilities select NumPy for anything `array` has to coerce. */
  lemma DefaultCapsCoerceWithNumPy(obj: Obj, dshape: DShapeArg, parse: Parser)
    requires obj.Other? && NormaliseDShape(dshape, parse).Ok?
    ensures Array(obj, dshape, DefaultCaps, parse)
         == Ok(BlazeArray(Backed(NumPy, Coerced(obj, ElemType(NormaliseDShape(dshape, parse).value)))))
  {
  }

  /**
   With an empty capabilities dictionary, `array` still succeeds on a
   descriptor, an ndarray or a barray; it raises TypeError on anything else
   except a generator, and a generator, `zeros` and `ones` all fail because
   `dd` is never assigned.
   */
  lemma EmptyCapsOutcomes(obj: Obj, dshape: DShapeArg, parse: Parser)
    requires NormaliseDShape(dshape, parse).Ok?
    ensures Array(obj, dshape, map[], parse).Ok? <==> (obj.Descriptor? || obj.NdArray? || obj.BArray?)
    ensures obj.Other? ==> Array(obj, dshape, map[], parse) == Err(TypeError(obj))
    ensures obj.Generator? ==> Array(obj, dshape, map[], parse) == Err(UnboundLocal)
    ensures FromIter(obj, dshape, map[], parse) == Err(UnboundLocal)
    ensures Zeros(dshape, map[], parse) == Err(UnboundLocal)
    ensures Ones(dshape, map[], parse) == Err(UnboundLocal)
  {
  }

  /** `zeros` and `ones` fail alike and otherwise differ only in the fill value. */
  lemma ZerosOnesAgree(dshape: DShapeArg, caps: Caps, parse: Parser)
    ensures Zeros(dshape, caps, parse).Ok? <==> Ones(dshape, caps, parse).Ok?
    ensures Zeros(dshape, caps, parse).Err? ==> Zeros(dshape, caps, parse).error == Ones(dshape, caps, parse).error
    ensures Zeros(dshape, caps, parse).Ok? ==>
      var z := Zeros(dshape, caps, parse).value.dd;
      var o := Ones(dshape, caps, parse).value.dd;
      && z.Backed? && o.Backed? && z.engine == o.engine
      && z.store.Filled? && o.store.Filled?
      && z.store.fill == Zero && o.store.fill == One
      && z.store.shape == o.store.shape && z.store.dtype == o.store.dtype
  {
  }

  /** A shape tuple written as a run of fixed dimensions. */
  function FixedDims(shape: seq<nat>): seq<Dim> {
    seq(|shape|, i requires 0 <= i < |shape| => Fixed(shape[i]))
  }

  /**
   `zeros` of a datashape whose dimensions are all fixed allocates exactly
   that shape and element type with the selected engine: a shape tuple
   written as fixed dimensions projects back to the same tuple.
   */
  lemma ZerosOfFixedShape(shape: seq<nat>, dt: DType, caps: Caps, parse: Parser)
    requires SelectEngine(caps).Some?
    ensures Zeros(Parsed(DShape(FixedDims(shape), dt)), caps, parse)
         == Ok(BlazeArray(Backed(SelectEngine(caps).value, Filled(Some(shape), Some(dt), Zero))))
  {
    var ds := DShape(FixedDims(shape), dt);
    var p := FillParams(Some(ds));
    assert AllFixed(ds.dims);
    assert p.value.0.value == shape;
  }

  /**
   `zeros` of a datashape with an unbound dimension fails inside `to_numpy`
   once a capability is present.
   */
  lemma ZerosOfUnboundShapeFails(ds: DShape, caps: Caps, parse: Parser, i: nat)
    requires i < |ds.dims| && ds.dims[i].Var?
    requires SelectEngine(caps).Some?
    ensures Zeros(Parsed(ds), caps, parse) == Err(NotNumPyCompatible(ds))
    ensures Ones(Parsed(ds), caps, parse) == Err(NotNumPyCompatible(ds))
  {
  }

  /** The shape every successful result has, whichever constructor built it. */
  predicate WellFormed(a: BlazeArray) {
    match a.dd
    case External(o) => o.Descriptor?
    case Backed(e, s) =>
      match s
      case Wrapped(o) => if e == NumPy then o.NdArray? else o.BArray?
      case Coerced(o, _) => o.Other?
      case Streamed(_, _, count) => count == StreamCount(e)
      case Filled(shape, dt, _) => shape.None? <==> dt.None?
  }

  /**
   Every array `array`, `_fromiter`, `zeros` and `ones` return is well formed:
   an engine wraps only its own native array, coerces only unrecognised
   objects, is told an unknown count exactly when it is BLZ, and receives a
   shape exactly when it receives an element type.
   */
  lemma ResultsWellFormed(obj: Obj, dshape: DShapeArg, caps: Caps, parse: Parser)
    ensures Array(obj, dshape, caps, parse).Ok? ==> WellFormed(Array(obj, dshape, caps, parse).value)
    ensures FromIter(obj, dshape, caps, parse).Ok? ==> WellFormed(FromIter(obj, dshape, caps, parse).value)
    ensures Zeros(dshape, caps, parse).Ok? ==> WellFormed(Zeros(dshape, caps, parse).value)
    ensures Ones(dshape, caps, parse).Ok? ==> WellFormed(Ones(dshape, caps, parse).value)
  {
  }
}
