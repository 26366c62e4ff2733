/** Values shared by every part of the model: the Option/Result wrappers used for
    Python's `None` and exceptions, a dynamic value for dictionary entries whose
    meaning the model does not interpret, and numpy arrays as shape plus flat data. */
module Values {

  datatype Option<+T> = None | Some(value: T)

  datatype Result<+T, +E> = Ok(value: T) | Err(error: E)

  /** A Python value carried through configuration dictionaries unchanged. */
  datatype Value =
    | VNone
    | VBool(b: bool)
    | VInt(i: int)
    | VReal(r: real)
    | VStr(s: string)
    | VList(items: seq<Value>)
    | VArray(t: Tensor)
    | VDict(entries: map<string, Value>)

  /** Python truthiness of a value (`if v:`). */
  predicate Truthy(v: Value)
  {
    match v
    case VNone => false
    case VBool(b) => b
    case VInt(i) => i != 0
    case VReal(r) => r != 0.0
    case VStr(s) => s != ""
    case VList(items) => items != []
    case VArray(t) => |t.data| != 0
    case VDict(entries) => entries != map[]
  }

  /** A numpy array: its shape and its elements in row-major order. */
  datatype Tensor = Tensor(shape: seq<nat>, data: seq<real>)

  /** Number of elements an array of the given shape holds. */
  function Product(shape: seq<nat>): nat
  {
    if shape == [] then 1 else shape[0] * Product(shape[1..])
  }

  /** A well-formed array holds exactly as many elements as its shape says. */
  predicate WellShaped(t: Tensor)
  {
    |t.data| == Product(t.shape)
  }

  /** A one-dimensional array built from a Python list (`np.array(list)`). */
  function Vector(xs: seq<real>): (t: Tensor)
    ensures WellShaped(t) && t.shape == [|xs|] && t.data == xs
  {
    Tensor([|xs|], xs)
  }

  /** `np.zeros(shape)`. */
  function Zeros(shape: seq<nat>): (t: Tensor)
    ensures WellShaped(t) && t.shape == shape
    ensures forall i :: 0 <= i < |t.data| ==> t.data[i] == 0.0
  {
    Tensor(shape, seq(Product(shape), _ => 0.0))
  }

  /** `t.reshape(shape)`: numpy refuses a shape with a different element count. */
  function Reshape(t: Tensor, shape: seq<nat>): (r: Option<Tensor>)
    ensures r.Some? <==> |t.data| == Product(shape)
    ensures r.Some? ==> WellShaped(r.value) && r.value.shape == shape && r.value.data == t.data
  {
    if |t.data| == Product(shape) then Some(Tensor(shape, t.data)) else None
  }

  /** Element-wise multiplication by a scalar (`t * c`). */
  function Scale(t: Tensor, c: real): (r: Tensor)
    ensures r.shape == t.shape && |r.data| == |t.data|
    ensures forall i :: 0 <= i < |t.data| ==> r.data[i] == t.data[i] * c
  {
    Tensor(t.shape, seq(|t.data|, i requires 0 <= i < |t.data| => t.data[i] * c))
  }

  /** Dividing by a non-zero factor undoes multiplying by it: data scaled into a unit
      for training and predictions scaled back come out in the unit they started in. */
  lemma ScaleInverse(t: Tensor, f: real)
    requires f != 0.0
    ensures Scale(Scale(t, f), 1.0 / f) == t
  {
    var s := Scale(Scale(t, f), 1.0 / f);
    forall i | 0 <= i < |t.data|
      ensures s.data[i] == t.data[i]
    {
      calc {
        s.data[i];
        (t.data[i] * f) * (1.0 / f);
        t.data[i] * (f * (1.0 / f));
        t.data[i];
      }
    }
    assert s.data == t.data;
  }
}
