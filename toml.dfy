/**
 * The TOML example under each field of the hierarchical drivers: the table it
 * sits in and the value it shows, as both snapshots of the driver derive them.
 */
module Toml {
  import opened Text
  import opened Records

  /** The prefix marking a default that names a nested configuration section. */
  const UrlPrefix := "url:"

  /** The TOML table of a configuration: its name with `/` read as `.`. */
  function TomlBase(configName: string): (t: string)
    ensures |t| == |configName| && '/' !in t
    ensures forall i :: 0 <= i < |configName| && configName[i] != '/' ==> t[i] == configName[i]
  {
    ReplaceChar(configName, '/', '.')
  }

  /** A field's default as the templates show it. */
  datatype Decoded = Decoded(
    field: FieldInfo,   // the record, its default rewritten for a `url:` default
    escaped: string,    // the value shown in the TOML example
    tomlPath: string,   // the TOML table the example sits in
    pointer: bool)      // whether the pointer template renders it
}
