/** The JSON documents the configuration and secret files hold, as Python sees them after `json.load`. */
module Json {
  import opened Wrappers
  import opened Exceptions

  /** The kinds of JSON value the configuration file stores. */
  datatype JValue =
    | JInt(i: int)
    | JBool(b: bool)
    | JStr(s: string)
    | JIntList(xs: seq<int>)

  /** A JSON object loaded into a Python `dict`. */
  type Document = map<string, JValue>

  /** `doc.get(key, default)`: reading never inserts the default into `doc`. */
  function Get(doc: Document, key: string, default: JValue): JValue
  {
    if key in doc then doc[key] else default
  }

  /** The JSON values of a list of integers, in order. */
  function Items(xs: seq<int>): (r: seq<JValue>)
    ensures |r| == |xs|
    ensures forall i :: 0 <= i < |xs| ==> r[i] == JInt(xs[i])
  {
    seq(|xs|, i requires 0 <= i < |xs| => JInt(xs[i]))
  }

  /**
   * What a Python `for` loop visits when it iterates over a stored value:
   * the elements of a list, one-character strings for a string; an integer
   * or a boolean is not iterable and raises `TypeError` before the first step.
   */
  function Iterate(v: JValue): (r: Result<seq<JValue>, Exception>)
    ensures v.JIntList? ==> r == Success(Items(v.xs))
    ensures v.JStr? ==> r.Success? && |r.value| == |v.s|
    ensures v.JStr? ==> forall i :: 0 <= i < |v.s| ==> r.value[i] == JStr([v.s[i]])
    ensures v.JInt? ==> r == Failure(TypeError("'int' object is not iterable"))
    ensures v.JBool? ==> r == Failure(TypeError("'bool' object is not iterable"))
  {
    match v
    case JIntList(xs) => Success(Items(xs))
    case JStr(s) => Success(seq(|s|, i requires 0 <= i < |s| => JStr([s[i]])))
    case JInt(_) => Failure(TypeError("'int' object is not iterable"))
    case JBool(_) => Failure(TypeError("'bool' object is not iterable"))
  }
}
