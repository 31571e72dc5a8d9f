/** The untyped configuration document (what the TOML loaders hand to the core),
    the error values that stand for the Python exceptions the core raises, and the
    few pieces of Python value semantics the core relies on: `in`, `[]`, and the
    string-list test. */
module Documents {
  import opened Text

  datatype Option<+T> = None | Some(value: T)

  datatype Result<+T> = Ok(value: T) | Err(error: Error)

  /** A nested document value: a dict, a list or a scalar. */
  datatype Value =
    | VMap(m: map<string, Value>)
    | VList(items: seq<Value>)
    | VStr(s: string)
    | VBool(b: bool)
    | VInt(i: int)

  /** The exception classes the core raises or lets through. */
  datatype ErrorKind =
    | KeyError
    | ValueError
    | TypeError
    | AttributeError
    | IndexError
    | ShutilError      // shutil.Error, raised by the unreachable `case _` of the step dispatch
    | PlainException   // a bare Exception, raised by a failing shell command
    | OtherError(name: string)

  /** One item of a diagnostic message list. `Dump` stands for a YAML rendering of a
      value, `Shown` for an f-string embedding a value between two texts. */
  datatype Line =
    | Text(text: string)
    | Num(n: int)
    | Dump(v: Value)
    | Shown(before: string, v: Value, after: string)
    | Nested(lines: seq<Line>)

  /** One positional argument of an exception. */
  datatype Arg = AStr(s: string) | AInt(n: int) | AList(lines: seq<Line>)

  /** An exception: its class and its `args` tuple. */
  datatype Error = Error(kind: ErrorKind, args: seq<Arg>)

  function TypeName(v: Value): string {
    match v
    case VMap(_) => "dict"
    case VList(_) => "list"
    case VStr(_) => "str"
    case VBool(_) => "bool"
    case VInt(_) => "int"
  }

  function NotIterable(v: Value): Error {
    Error(TypeError, [AStr("argument of type '" + TypeName(v) + "' is not iterable")])
  }

  /** Python's `key in container` for a string key. */
  function Contains(container: Value, key: string): Result<bool> {
    match container
    case VMap(m) => Ok(key in m)
    case VList(items) => Ok(VStr(key) in items)
    case VStr(s) => Ok(Occurs(key, s))
    case _ => Err(NotIterable(container))
  }

  /** Python's `container[key]` for a string key. */
  function GetItem(container: Value, key: string): Result<Value> {
    match container
    case VMap(m) =>
      if key in m then Ok(m[key]) else Err(Error(KeyError, [AStr(key)]))
    case VList(_) => Err(Error(TypeError, [AStr("list indices must be integers or slices, not str")]))
    case VStr(_) => Err(Error(TypeError, [AStr("string indices must be integers, not 'str'")]))
    case _ => Err(Error(TypeError, [AStr("'" + TypeName(container) + "' object is not subscriptable")]))
  }

  /** `is_string_list` / `stringy_check`: a list (possibly empty) whose items are all strings. */
  predicate IsStringList(v: Value) {
    v.VList? && forall i :: 0 <= i < |v.items| ==> v.items[i].VStr?
  }

  /** The strings of a string list, in order. */
  function StringsOf(v: Value): (r: seq<string>)
    requires IsStringList(v)
    ensures |r| == |v.items|
    ensures forall i :: 0 <= i < |r| ==> v.items[i] == VStr(r[i])
  {
    seq(|v.items|, i requires 0 <= i < |v.items| => v.items[i].s)
  }

  /** The document form of a list of strings; `StringsOf` undoes it. */
  function FromStrings(strs: seq<string>): (v: Value)
    ensures IsStringList(v)
  {
    VList(seq(|strs|, i requires 0 <= i < |strs| => VStr(strs[i])))
  }

  lemma StringsRoundTrip(strs: seq<string>)
    ensures StringsOf(FromStrings(strs)) == strs
  {
  }

  /** Exactly the all-string lists pass: the empty list does, any non-list does not
      (a string is not a string list), and one non-string item is enough to fail. */
  lemma {:induction false} StringListExactly(v: Value)
    ensures v == VList([]) ==> IsStringList(v)
    ensures !v.VList? ==> !IsStringList(v)
    ensures v.VList? ==> (IsStringList(v) <==> forall x :: x in v.items ==> x.VStr?)
  {
    if v.VList? {
      if IsStringList(v) {
        forall x | x in v.items ensures x.VStr? {
          var i :| 0 <= i < |v.items| && v.items[i] == x;
        }
      }
    }
  }
}
