/**
 * The two lookup tables that translate between Caffe2 runtime type ids and
 * NumPy array type numbers.
 */
module TypeTables {

  /**
   * Caffe2 runtime type ids (the id of a `TypeMeta`). `Int32` is C++ `int`,
   * which the binding layer insists is 32 bits wide. `Uninitialized` is the
   * id of a default-constructed `TypeMeta`, the "unknown type". `TensorCPU`
   * is the CPU tensor type, and `OtherType` any further registered type.
   */
  datatype TypeId =
    | Bool | Double | Float | Float16 | Int32 | Int8 | Int16 | Int64
    | UInt8 | UInt16 | StdString
    | TensorCPU
    | Uninitialized
    | OtherType(name: string)

  /**
   * NumPy type numbers. The named constructors are the constants the tables
   * mention; `NpyCode` is any other type number, -1 included. `NpyInt64` is
   * kept apart even though NumPy defines it as an alias of `NpyLong` or
   * `NpyLongLong` depending on the platform (see `Int64AliasAgrees`).
   */
  datatype NpyType =
    | NpyBool | NpyDouble | NpyFloat | NpyFloat16 | NpyInt | NpyInt8 | NpyInt16
    | NpyInt64 | NpyLong | NpyLongLong | NpyUInt8 | NpyUInt16 | NpyObject
    | NpyCode(code: int)

  /** The sentinel type number returned for a type id with no NumPy counterpart. */
  const NoNumpyType: NpyType := NpyCode(-1)

  /** The eleven type ids the Caffe2-to-NumPy table lists. */
  predicate HasNumpyType(t: TypeId) {
    t in {Bool, Double, Float, Float16, Int32, Int8, Int16, Int64, UInt8, UInt16, StdString}
  }

  /** The type numbers the NumPy-to-Caffe2 table lists: all the named ones. */
  predicate HasCaffeType(n: NpyType) {
    !n.NpyCode?
  }

  /**
   * NumPy type number to Caffe2 type id. `longIsInt` is the platform fact
   * `sizeof(long) == sizeof(int)`, which decides what `NPY_LONG` means.
   */
  function NumpyToCaffe(n: NpyType, longIsInt: bool): (t: TypeId)
    ensures t == Uninitialized <==> !HasCaffeType(n)
    ensures t != Uninitialized ==> HasNumpyType(t)
    ensures n == NpyLong ==> t == (if longIsInt then Int32 else Int64)
    ensures n == NpyInt64 || n == NpyLongLong ==> t == Int64
  {
    match n
    case NpyBool => Bool
    case NpyDouble => Double
    case NpyFloat => Float
    case NpyFloat16 => Float16
    case NpyInt => Int32
    case NpyInt8 => Int8
    case NpyInt16 => Int16
    case NpyInt64 => Int64
    case NpyLong => if longIsInt then Int32 else Int64
    case NpyLongLong => Int64
    case NpyUInt8 => UInt8
    case NpyUInt16 => UInt16
    case NpyObject => StdString
    case NpyCode(_) => Uninitialized
  }

  /** Caffe2 type id to NumPy type number, -1 for an unlisted id. */
  function CaffeToNumpy(t: TypeId): (n: NpyType)
    ensures n == NoNumpyType <==> !HasNumpyType(t)
    ensures HasNumpyType(t) ==> HasCaffeType(n)
    ensures HasNumpyType(t) ==> NumpyToCaffe(n, false) == t && NumpyToCaffe(n, true) == t
    ensures t == Int64 ==> n == NpyLongLong
  {
    match t
    case Bool => NpyBool
    case Double => NpyDouble
    case Float => NpyFloat
    case Float16 => NpyFloat16
    case Int32 => NpyInt
    case Int8 => NpyInt8
    case Int16 => NpyInt16
    case Int64 => NpyLongLong
    case UInt8 => NpyUInt8
    case UInt16 => NpyUInt16
    case StdString => NpyObject
    case _ => NoNumpyType
  }

  /**
   * Going to NumPy and back is the identity on every listed type id, on
   * either platform, and lands on the unknown type for every other id.
   */
  lemma RoundTrip(t: TypeId, longIsInt: bool)
    ensures HasNumpyType(t) ==> NumpyToCaffe(CaffeToNumpy(t), longIsInt) == t
    ensures !HasNumpyType(t) ==> NumpyToCaffe(CaffeToNumpy(t), longIsInt) == Uninitialized
  {
  }

  /**
   * Every NumPy type number is sent to a canonical one: the Caffe2 type it
   * denotes is not changed by a further trip to NumPy and back.
   */
  lemma CanonicalNumpyType(n: NpyType, longIsInt: bool)
    ensures NumpyToCaffe(CaffeToNumpy(NumpyToCaffe(n, longIsInt)), longIsInt)
         == NumpyToCaffe(n, longIsInt)
  {
  }

  /**
   * Whichever of `NPY_LONG` and `NPY_LONGLONG` the platform makes `NPY_INT64`
   * an alias of, the table gives the alias the same type as `NPY_INT64`, so
   * the duplicate key in the table's initialiser is harmless.
   */
  lemma Int64AliasAgrees(longIsInt: bool)
    ensures NumpyToCaffe(NpyInt64, longIsInt)
         == NumpyToCaffe(if longIsInt then NpyLongLong else NpyLong, longIsInt)
  {
  }
}
