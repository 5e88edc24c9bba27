/** Reading boolean, defined and defaulted options out of a per-system
    settings map. Absent keys never fail: they read as disabled, undefined
    or the default. */
module Options {
  import opened Values

  /** A boolean option is on exactly when it is present and spelled "1" or "true". */
  function Enabled(key: string, d: Config): (r: bool)
    ensures r <==> key in d && d[key] in {"1", "true"}
    ensures r ==> Defined(key, d)
  {
    key in d && (d[key] == "1" || d[key] == "true")
  }

  /** An option is defined when it is present with a non-empty value. */
  function Defined(key: string, d: Config): (r: bool)
    ensures r <==> key in d && d[key] != ""
  {
    key in d && |d[key]| > 0
  }

  /** The option's value, or `default` when the key is absent (an empty
      value is returned as is). */
  function Get(d: Config, key: string, default: string): (r: string)
    ensures key in d ==> r == d[key]
    ensures key !in d ==> r == default
  {
    if key in d then d[key] else default
  }
}
