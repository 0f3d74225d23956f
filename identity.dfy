/**
 * Best-effort device identity (`Http._set_name`): the machine name and the
 * serial number are read through two device properties; an AttributeError
 * from either leaves both unknown.
 */
module DeviceIdentity {
  import opened Wrappers
  import opened Requests

  /** What reading one device property yields. */
  datatype Lookup = Found(value: string) | AttributeMissing | LookupRaised(error: Failure)

  /** `_name` and `_serial` after `_set_name`; `None` is Python's `None`. */
  datatype Identity = Identity(name: Option<string>, serial: Option<string>)

  /**
   * `_set_name` over the outcome of reading `pretty(machine_name)` and the one
   * of reading `serial_number`; the second is read only when the first succeeded.
   */
  function SetName(name: Lookup, serial: Lookup): (r: Result<Identity, Failure>)
    ensures name.AttributeMissing? ==> r == Success(Identity(None, None))
    ensures r.Success? ==> (r.value.name.None? <==> r.value.serial.None?)
    ensures r.Success? && r.value.name.Some? <==> name.Found? && serial.Found?
    ensures r.Success? && r.value.name.Some? ==> r.value == Identity(Some(name.value), Some(serial.value))
    ensures r.Failure? <==> name.LookupRaised? || (name.Found? && serial.LookupRaised?)
    ensures r.Failure? ==> r.error == (if name.LookupRaised? then name.error else serial.error)
  {
    match name
    case AttributeMissing => Success(Identity(None, None))
    case LookupRaised(e) => Failure(e)
    case Found(n) =>
      match serial
      case AttributeMissing => Success(Identity(None, None))
      case LookupRaised(e) => Failure(e)
      case Found(s) => Success(Identity(Some(n), Some(s)))
  }

  /** Once the name lookup fails, the serial lookup plays no part. */
  lemma SerialIgnoredWithoutName(name: Lookup, serial: Lookup, other: Lookup)
    requires !name.Found?
    ensures SetName(name, serial) == SetName(name, other)
  {
  }
}
