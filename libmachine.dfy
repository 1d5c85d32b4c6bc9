/**
 * The parts of the host tool's driver library (docker-machine's libmachine) that the
 * GleSYS driver reads or returns: the machine-state enumeration and the option bag
 * handed to SetConfigFromFlags.
 */
module LibMachine {

  /** The machine states the host tool knows, in libmachine's order. */
  datatype State = None | Running | Paused | Saved | Stopped | Stopping | Starting | Error | Timeout

  /**
   * The resolved option values of one `create` invocation, by flag name. A name that is
   * not in the bag reads as the zero value of its type.
   */
  datatype DriverOptions = DriverOptions(strings: map<string, string>, ints: map<string, int>)
  {
    function String(key: string): string {
      if key in strings then strings[key] else ""
    }

    function Int(key: string): int {
      if key in ints then ints[key] else 0
    }
  }

  /**
   * How the host tool resolves a flag: the value the user gave, and otherwise the default
   * from the driver's flag table.
   */
  function WithDefaults(given: DriverOptions, defaults: DriverOptions): (r: DriverOptions)
    ensures forall key :: r.String(key) == if key in given.strings then given.strings[key] else defaults.String(key)
    ensures forall key :: r.Int(key) == if key in given.ints then given.ints[key] else defaults.Int(key)
  {
    DriverOptions(defaults.strings + given.strings, defaults.ints + given.ints)
  }

  /**
   * Where the host tool keeps a machine's SSH key when the driver names none: the file
   * id_rsa in the machine's own directory under the store.
   */
  function DefaultSSHKeyPath(storePath: string, machineName: string): string {
    storePath + "/machines/" + machineName + "/id_rsa"
  }
}
