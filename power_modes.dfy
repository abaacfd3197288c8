/**
 * Microsoft.Win32.PowerModes, the operating system's power transitions.
 * `Undefined` is the enum's default value 0, which none of the named
 * members has; a field of this type that was never assigned holds it.
 */
module PowerModes {

  datatype PowerMode = Undefined | Resume | StatusChange | Suspend
}
