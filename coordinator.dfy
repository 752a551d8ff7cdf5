/**
 * The state the switches share with the integration's polling coordinator:
 * the device address, whether the last poll succeeded, and the cached
 * snapshot of the device's JSON sections ("info", "setup", ...). The
 * coordinator's polling loop itself is not part of this model; only the
 * state it publishes is.
 */
module Coordinators {
  import opened Wrappers

  /** A scalar of the device's JSON. Floating-point numbers are not modelled. */
  datatype Scalar = Int(i: int) | Str(s: string) | Bool(b: bool) | Null

  /** One JSON section: field identifier to value. */
  type Section = map<string, Scalar>

  /** The cached snapshot: section name to section, where a section may be None. */
  type Snapshot = map<string, Option<Section>>

  /** The Python exceptions that reading or patching the snapshot can raise. */
  datatype Error =
    | KeyError(key: string)   // a missing dictionary key
    | BareKeyError            // `raise KeyError` with no argument
    | NotSubscriptable        // a TypeError from subscripting None

  /**
   * Python's `v == n` for a JSON scalar `v` and an int `n`: a bool compares
   * as 0 or 1, a string or None never equals an int.
   */
  function EqualsInt(v: Scalar, n: int): (b: bool)
    ensures b <==> v == Int(n) || (v == Bool(true) && n == 1) || (v == Bool(false) && n == 0)
  {
    match v
    case Int(i) => i == n
    case Bool(b) => (if b then 1 else 0) == n
    case Str(_) => false
    case Null => false
  }

  /** `data[name]` on the snapshot, which is None before the first successful poll. */
  function SectionOf(data: Option<Snapshot>, name: string): (r: Result<Option<Section>, Error>)
    ensures data.None? ==> r == Failure(NotSubscriptable)
    ensures data.Some? && name !in data.value ==> r == Failure(KeyError(name))
    ensures data.Some? && name in data.value ==> r == Success(data.value[name])
  {
    match data
    case None => Failure(NotSubscriptable)
    case Some(d) => if name in d then Success(d[name]) else Failure(KeyError(name))
  }

  /** `data[name][field]`: a field of a section, with the errors Python raises. */
  function FieldOf(data: Option<Snapshot>, name: string, field: string): (r: Result<Scalar, Error>)
    ensures r.Success? <==> SectionOf(data, name).Success? && SectionOf(data, name).value.Some?
                            && field in SectionOf(data, name).value.value
    ensures r.Success? ==> r.value == data.value[name].value[field]
    ensures SectionOf(data, name).Failure? ==> r == Failure(SectionOf(data, name).error)
    ensures SectionOf(data, name) == Success(None) ==> r == Failure(NotSubscriptable)
    ensures (SectionOf(data, name).Success? && SectionOf(data, name).value.Some?
             && field !in SectionOf(data, name).value.value) ==> r == Failure(KeyError(field))
  {
    match SectionOf(data, name)
    case Failure(e) => Failure(e)
    case Success(None) => Failure(NotSubscriptable)
    case Success(Some(section)) =>
      if field in section then Success(section[field]) else Failure(KeyError(field))
  }

  /** The coordinator object as the switches see it. */
  class Coordinator {
    var host: string
    var lastUpdateSuccess: bool
    var data: Option<Snapshot>

    constructor (host: string, data: Option<Snapshot>, lastUpdateSuccess: bool)
      ensures this.host == host && this.data == data
      ensures this.lastUpdateSuccess == lastUpdateSuccess
    {
      this.host := host;
      this.data := data;
      this.lastUpdateSuccess := lastUpdateSuccess;
    }
  }
}
