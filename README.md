# Blaze array constructors

A model of the construction policy in Blaze's `blaze/constructors.py`. It
covers the public constructors `array`, `zeros`, `ones` and `open`, and the
private `_fromiter`. They decide from two inputs which data descriptor gets
built, or whether construction fails:

- the kind of input object: an existing `IDataDescriptor`, a NumPy `ndarray`,
  a `blz.barray`, a generator, or anything else;
- the capabilities dictionary (`caps`).

The model is pure, as the source is. Every constructor is a function from its
arguments to `Result<BlazeArray>`.

- `Obj` is the closed set of input kinds that `array` tests, in the same order.
- `Caps` is a `map<string, bool>`. Only its keys are consulted
  (`"efficient-write"`, `"compress"`).
- `DShapeArg` is the `dshape` argument: `None`, a string, or a parsed
  datashape. `NormaliseDShape` sends a string through the datashape parser.
  The parser is a function parameter `parse: Parser`, because it lives outside
  this file. It may succeed or raise.
- A `Store` records which engine call was made and with which arguments:
  - `Wrapped`: an existing array is wrapped as is;
  - `Coerced`: `np.array` / `blz.barray`;
  - `Streamed`: `np.fromiter` / `blz.fromiter`, with the `count` argument;
  - `Filled`: `zeros` / `ones`, with the shape and dtype.
- A `DataDescriptor` is either `External` (the caller's descriptor, passed
  through) or `Backed(engine, store)`. The engine is NumPy or BLZ.
- `Error` covers the exceptions the file raises or lets through:
  - `TypeError`: an unrecognised object with no capability key, in `array`;
  - `UnboundLocal`: `dd` is read before it was assigned, in `_fromiter`,
    `zeros` and `ones` when no capability key is present;
  - `NotImplemented`: `open`;
  - `ParseError`: raised by the parser;
  - `NotNumPyCompatible`: raised by `to_numpy`.
- `SelectEngine` is the reference policy the constructors are proved against.
  It is defined by its contract: the requested engine of best rank, where
  `"efficient-write"` ranks before `"compress"`. It returns `None` when no
  engine is requested.
- The datashape module is not part of this model. Its two projections are
  modelled over a structured `DShape` (dimensions plus an element type):
  - `to_dtype` gives the element type;
  - `to_numpy` gives the fixed extents and the element type, and fails when a
    dimension is unbound.

Four behaviours of the code are worth stating plainly:

- `zeros(None)` and `ones(None)` hand `(None, None)` to the engine as shape
  and dtype (blaze/constructors.py:125, 129, 154, 158).
- When no capability key is present, `_fromiter`, `zeros` and `ones` never
  assign `dd`, so `return Array(dd)` raises UnboundLocalError
  (blaze/constructors.py:104, 132, 161).
- `array` normalises a string `dshape` before it tests the object's kind
  (blaze/constructors.py:64). A malformed datashape string therefore fails
  even for a descriptor, an `ndarray` or a `barray`.
- `array`'s docstring promises that input is coerced into an explicit
  `dshape`, and its "Bugs" section says the `dshape` is ignored instead
  (blaze/constructors.py:44-48, 57-61). The code does ignore it: a
  descriptor, an `ndarray` or a `barray` is wrapped whatever the `dshape`,
  and an object that is coerced receives only the element type.

## Model

| member | source | states |
|---|---|---|
| Constructors.SelectEngine | blaze/constructors.py:76-86 | the capability chain yields no engine exactly when neither key is present; otherwise it yields a requested engine, and no requested engine outranks it, so `'efficient-write'` beats `'compress'` |
| Constructors.NormaliseDShape | blaze/constructors.py:64 | a non-string `dshape` is used as given (None stays None); a string succeeds exactly when the parser does, yielding the parsed value or the parser's own error |
| Constructors.ElemType | blaze/constructors.py:77 | the element type passed to an engine is None exactly when `dshape` is None, and otherwise is `to_dtype(dshape)` |
| Constructors.FillParams | blaze/constructors.py:125 | with no `dshape` the engine gets `(None, None)`; otherwise the projection succeeds exactly when every dimension is fixed, and then gives those extents in order and `to_dtype(dshape)`; an unbound dimension raises |
| Constructors.Array | blaze/constructors.py:36-87 | a parse error comes first; then a descriptor is passed through, an ndarray goes to NumPy and a barray to BLZ, all unchanged; a generator gives exactly what `_fromiter` gives on the original arguments; anything else is coerced by the engine `SelectEngine` picks, with `ElemType(dshape)`, or raises TypeError when it picks none |
| Constructors.FromIter | blaze/constructors.py:92-104 | a parse error propagates; with no capability key `dd` is unbound; otherwise the generator is streamed into the engine `SelectEngine` picks, with `ElemType(dshape)`, and BLZ alone is told the count is unknown (-1) |
| Constructors.Zeros | blaze/constructors.py:107-132 | a parse error propagates; with no capability key `dd` is unbound; otherwise a zero-filled store of the engine `SelectEngine` picks, with the shape and dtype from `FillParams`, or the projection's error |
| Constructors.Ones | blaze/constructors.py:135-161 | the same as `zeros`, with a one-filled store |
| Constructors.Open | blaze/constructors.py:165-166 | always raises NotImplementedError, whatever the URI |
| Datashape.Extents | blaze/constructors.py:125 | the extents of a run of dimensions exist exactly when all are fixed, and then match them one for one |
| Datashape.ToNumpy | blaze/constructors.py:16 | `to_numpy` succeeds exactly when every dimension is fixed; the shape has one extent per dimension, in order, and the dtype is `to_dtype` |
| ConstructorProperties.NormaliseIdempotent | blaze/constructors.py:92-94 | re-normalising an already-normalised `dshape`, as `_fromiter` does after `array`, gives the same value under any parser |
| ConstructorProperties.KindBeforeCaps | blaze/constructors.py:66-73 | for a descriptor, an ndarray or a barray, `array` returns the same thing under any two capability dictionaries, the empty one included |
| ConstructorProperties.KeyPresenceOnly | blaze/constructors.py:76-83 | two capability dictionaries with the same keys make all four constructors return the same result, whatever the values |
| ConstructorProperties.EfficientWriteWins | blaze/constructors.py:76-103 | with both keys present, every successful `array` or `_fromiter` result on a coerced or streamed input uses NumPy |
| ConstructorProperties.EfficientWriteWinsFill | blaze/constructors.py:124-160 | with both keys present, every successful `zeros` or `ones` result uses NumPy |
| ConstructorProperties.DShapeIgnoredWhenWrapping | blaze/constructors.py:57-73 | for a descriptor, an ndarray or a barray, `array` gives the same result for any two parsed datashapes: the explicit `dshape` is not used |
| ConstructorProperties.OnlyMeasureReachesEngine | blaze/constructors.py:57-83 | for an object `array` coerces, two parsed datashapes with the same element type give the same result: the dimensions of an explicit `dshape` are dropped |
| ConstructorProperties.DefaultCapsCoerceWithNumPy | blaze/constructors.py:36 | the default capabilities coerce an unrecognised object with NumPy |
| ConstructorProperties.EmptyCapsOutcomes | blaze/constructors.py:84-86 | with empty capabilities, `array` succeeds exactly on descriptors, ndarrays and barrays; any other object raises TypeError; generators, `zeros` and `ones` fail with `dd` unbound |
| ConstructorProperties.ZerosOnesAgree | blaze/constructors.py:123-160 | `zeros` and `ones` succeed together and fail with the same error; on success they use the same engine, shape and dtype, and differ only in the fill value |
| ConstructorProperties.ZerosOfFixedShape | blaze/constructors.py:124-127 | `zeros` of a datashape with all dimensions fixed allocates exactly that shape tuple and element type, with the engine the capabilities pick |
| ConstructorProperties.ZerosOfUnboundShapeFails | blaze/constructors.py:125 | `zeros` and `ones` of a datashape with an unbound dimension raise the projection's error when a capability key is present |
| ConstructorProperties.ResultsWellFormed | blaze/constructors.py:66-104 | every successful result is well formed: a passed-through object is a descriptor; NumPy wraps only ndarrays and BLZ only barrays; only unrecognised objects are coerced; the unknown count goes to BLZ and only to BLZ; a fill shape is given exactly when a fill dtype is |

## Left out

- The storage engines: `np.array`, `np.fromiter`, `np.zeros`/`ones`, `blz.barray`, `blz.fromiter` and `blz.zeros`/`ones`. They are foreign libraries. The model records each call and its arguments and assumes it succeeds. Their coercion errors and element contents are not modelled, nor is how they treat a `None` shape.
- The datashape parser: it is a function parameter, so every property holds for every parser.
- `to_dtype` and `to_numpy`: they are modelled as projections of a structured datashape. The real ones handle more kinds of dimension and measure than "fixed", "unbound" and a named type.
- The `Array` wrapper class and the descriptor classes: they are only constructed and returned here, so they appear as data values.
- Generator consumption and element counts: these happen inside the engines.
- The Python 2/3 `basestring` probe: it is a language shim. `IsStr` is the "is a string" test.
- Overlapping `isinstance` results: the input kinds form a closed union, so no object can be, say, both a descriptor and an ndarray.
- The text of the TypeError message: the error carries the offending object instead.
- The shared mutable default `caps` dictionary: nothing here mutates it, so it is a constant map.
