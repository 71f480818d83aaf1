/** Library calls the modelled code makes but that are not modelled here.
    Each is a parameter of the model, a total function standing for what the
    library returns. */
module Foreign {
  import opened Wrappers
  import opened Chrono

  datatype Externals = Externals(
    /** `strconv.ParseFloat(s, 64)` when it returns a nil error. */
    parseFloat: string -> Option<real>,
    /** `time.Parse(layout, value)` when it returns a nil error. */
    parseTime: (string, string) -> Option<Instant>,
    /** The map `json.Unmarshal` leaves in a `map[string]string`, when it
        returns a nil error (a JSON `null` leaves the empty map). */
    decodeJsonMap: string -> Option<map<string, string>>,
    /** The validator's `fqdn` check on a non-empty text. */
    isFqdn: string -> bool,
    /** The validator's `email` check on a non-empty text. */
    isEmail: string -> bool)
}
