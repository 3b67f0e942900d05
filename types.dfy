/**
 * Values shared by every part of the email worker model: the loosely typed
 * Python values that flow through configuration, argument namespaces and
 * queue payloads, the exceptions the code raises or catches, and the
 * sectioned INI files that ConfigParser reads.
 */
module Types {

  datatype Option<+T> = None | Some(value: T)

  datatype Result<+T, +E> = Ok(value: T) | Err(error: E)

  /** A Python value as far as the worker distinguishes them. `Section` is a
      ConfigParser section seen as a mapping of option names to strings
      (defaults already folded in); `Dict` is any other mapping. */
  datatype Value =
    | NoneV
    | Bool(b: bool)
    | Int(i: int)
    | Str(s: string)
    | Section(options: map<string, string>)
    | Dict(entries: map<string, Value>)

  /** Why `inspect.Signature.bind` refused a mapping. */
  datatype BindError =
    | MissingArgument(name: string)
    | UnexpectedKeywords(keys: set<string>)

  /** The Exception subclasses the model distinguishes. */
  datatype ErrorKind =
    | BindingFailed(why: BindError)   // TypeError raised by Signature.bind
    | TypeError(what: string)         // any other TypeError: not callable, not subscriptable, ...
    | KeyError(key: string)
    | AttributeError(name: string)
    | ValueError(text: string)
    | DecodeError                     // the body is not JSON describing an object
    | Transport(what: string)         // broker or SMTP failure
    | UsageError                      // argparse's parser.error

  /** A raised exception: KeyboardInterrupt derives from BaseException only,
      everything else the code meets derives from Exception. */
  datatype Exc = KeyboardInterrupt | Error(kind: ErrorKind)

  /** What ConfigParser.read produced: the [DEFAULT] options and the named
      sections, option names already lower-cased by the parser. */
  datatype IniFile = IniFile(defaults: map<string, string>, sections: map<string, map<string, string>>)

  /** Python truthiness of a value. */
  predicate Truthy(v: Value)
  {
    match v
    case NoneV => false
    case Bool(b) => b
    case Int(i) => i != 0
    case Str(s) => s != ""
    case Section(o) => o != map[]
    case Dict(e) => e != map[]
  }

  /** `str(path)` for a namespace attribute holding a path; argparse only ever
      stores strings or paths there. */
  function PathText(v: Value): string
  {
    if v.Str? then v.s else ""
  }

  /** An attribute of an argparse namespace: the function a sub-command
      selected (one of the commands `C`) or a plain value. */
  datatype Attr<+C> = Func(cmd: C) | Val(v: Value)

  /** The value an attribute carries into a called function; a function
      object is only ever subscripted, counted or serialized there, which
      fails as it does for None. */
  function ArgValue<C>(a: Attr<C>): Value
  {
    if a.Val? then a.v else NoneV
  }

  /** `str(args.x)` for a path attribute. */
  function ArgText<C>(a: Attr<C>): string
  {
    PathText(ArgValue(a))
  }
}
