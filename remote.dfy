/**
 * The remote endpoints the console calls through `remoteCallback`,
 * recorded as an outgoing request log; responses are delivered to the
 * components' handler methods.
 */
module Remote {
  /** A configuration value as the form sees it: a boolean or text (numbers arrive as text). */
  datatype Value = Bool(b: bool) | Text(s: string)

  datatype Request =
    | StatsProbe
    | GetConfig
    | SaveConfig(body: map<string, Value>)
    | ReloadConfig
    | GetEncodings
}
