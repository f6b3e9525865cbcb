/** The two application settings both the dashboard builder and the data source provider read. */
module Configuration {
  import opened Wrappers

  /** `DatabaseSettings:Host` and `DatabaseSettings:Database`; a missing key reads as `None`. */
  datatype Settings = Settings(host: Option<string>, database: Option<string>)
}
