/** The runtime values the instrumentation looks at, seen from outside.
    Everything the source obtains from Python's introspection (`str(type(v))`,
    `repr(v)`, `len(v)`, `v.keys()`, `inspect.signature`, ...) is carried by
    the value as an opaque string, computed before the model starts. */
module Values {

  datatype Option<+T> = None | Some(value: T)

  /** A Python value.
      - `tag`: `str(type(v))`, e.g. "<class 'list'>"
      - `repr`: `repr(v)`
      - `length`: `len(v)`, present exactly when `hasattr(v, '__len__')`
      - `keys`: `str(v.keys())`, present exactly when `hasattr(v, 'keys')`
      - `name`, `signature`, `argspec`, `isBuiltin`: `v.__name__`,
        `str(inspect.signature(v))`, `str(inspect.getfullargspec(v))` and
        `inspect.isbuiltin(v)`, meaningful for callables and classes
      - `mro`: the rendering of `inspect.getmro(v)`, meaningful for classes
      - `items`: the elements, present exactly when `isinstance(v, tuple)` */
  datatype Value = Value(
    tag: string,
    repr: string,
    length: Option<nat>,
    keys: Option<string>,
    name: string,
    signature: string,
    argspec: string,
    isBuiltin: bool,
    mro: string,
    items: Option<seq<Value>>)

  /** A raised exception: its class name, `str(e)`, its formatted traceback,
      and whether it is an `Exception` (as opposed to a `BaseException` such
      as `KeyboardInterrupt`, which `except Exception` does not catch). */
  datatype Exn = Exn(kind: string, message: string, traceback: string, isException: bool)

  /** `get_type(arg)`: the type tag used as the parser-dispatch key. */
  function GetType(arg: Value): string
  {
    arg.tag
  }
}
