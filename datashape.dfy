/**
 The part of the datashape library that the constructors rely on: a parsed
 datashape value and its two projections, `to_dtype` (the element type) and
 `to_numpy` (a NumPy shape tuple and element type). The textual parser is not
 modelled here; the constructors receive it as a parameter.
 */
module Datashape {
  import opened Wrappers

  /** An element-type tag (the "measure" of a datashape), such as int32 or float64. */
  datatype DType = DType(name: string)

  /** One dimension: a fixed extent or an unbound (variable-length) one. */
  datatype Dim = Fixed(n: nat) | Var

  /** A parsed datashape: dimensions, outermost first, then the element type. */
  datatype DShape = DShape(dims: seq<Dim>, measure: DType)

  /** What `to_numpy` yields: a concrete shape tuple and an element type. */
  datatype NumPyParams = NumPyParams(shape: seq<nat>, dtype: DType)

  predicate AllFixed(dims: seq<Dim>) {
    forall i :: 0 <= i < |dims| ==> dims[i].Fixed?
  }

  /** `to_dtype`: the element type of a datashape. */
  function ToDtype(ds: DShape): DType {
    ds.measure
  }

  /** The extents of a run of dimensions, or None as soon as one is unbound. */
  function Extents(dims: seq<Dim>): (r: Option<seq<nat>>)
    ensures r.Some? <==> AllFixed(dims)
    ensures r.Some? ==> |r.value| == |dims|
    ensures r.Some? ==> forall i :: 0 <= i < |dims| ==> r.value[i] == dims[i].n
  {
    if dims == [] then Some([])
    else
      match dims[0]
      case Var => None
      case Fixed(n) =>
        match Extents(dims[1..])
        case None => None
        case Some(rest) => Some([n] + rest)
  }

  /**
   `to_numpy`: the shape tuple and element type NumPy needs to allocate an array
   of this datashape; None (the projection raises) when a dimension is unbound.
   */
  function ToNumpy(ds: DShape): (r: Option<NumPyParams>)
    ensures r.Some? <==> AllFixed(ds.dims)
    ensures r.Some? ==> r.value.dtype == ToDtype(ds)
    ensures r.Some? ==> |r.value.shape| == |ds.dims|
    ensures r.Some? ==> forall i :: 0 <= i < |ds.dims| ==> r.value.shape[i] == ds.dims[i].n
  {
    match Extents(ds.dims)
    case None => None
    case Some(shape) => Some(NumPyParams(shape, ds.measure))
  }
}
