/** A representative subset of the Python values that `pickle.load` can hand
    back, and Python's truth test on them. The cache in `CIFAR10._do_batch`
    decides whether a batch is loaded with `not getattr(...)`, so which values
    count as false matters. */
module PyObjects {

  datatype PyObject =
    | PyNone
    | PyBool(b: bool)
    | PyInt(i: int)
    | PyBytes(bytes: seq<bv8>)
    | PyStr(text: string)
    | PyList(items: seq<PyObject>)
    | PyDict(entries: seq<(PyObject, PyObject)>)
      // any other object (a float, a tuple, an array, an instance), known
      // only by its type name and the answer its `__bool__` or `__len__` gives
    | PyOther(typeName: string, truth: bool)

  /** `bool(x)` in Python: exactly None, False, 0, the empty containers and
      the other objects that report false are false. */
  predicate Truthy(x: PyObject)
    ensures !Truthy(x) <==>
              || x == PyNone || x == PyBool(false) || x == PyInt(0)
              || x == PyBytes([]) || x == PyStr("") || x == PyList([]) || x == PyDict([])
              || (x.PyOther? && !x.truth)
  {
    match x
    case PyNone => false
    case PyBool(b) => b
    case PyInt(i) => i != 0
    case PyBytes(bs) => |bs| != 0
    case PyStr(t) => |t| != 0
    case PyList(items) => |items| != 0
    case PyDict(entries) => |entries| != 0
    case PyOther(_, truth) => truth
  }
}
