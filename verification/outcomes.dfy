/**
 Optional values, results and the error values the plugin subsystem produces.

 Go returns `(value, error)` pairs and bare `error`s; here a call that yields a value
 returns a `Result`, a call that yields only an error returns a `Status`, and every error
 message the modelled code builds is a constructor of `Error`, carrying what the message
 formats (`%s`) and the error it wraps (`%w`).
 */
module Outcomes {

  datatype Option<+T> = None | Some(value: T)

  datatype Result<+T> = Ok(value: T) | Err(error: Error)

  /** The `error` result of a Go call: `Nil` is success. */
  datatype Status = Nil | Fail(error: Error)

  /** Identity of one plugin client (one spawned plugin process): the serial number of
      the load attempt that created it. */
  type ClientId = nat

  datatype Error =
    /** An error value produced outside the model: the OS, the RPC channel, the remote
        plugin or the JSON library. It is passed along unchanged. */
    | External(message: string)
    /** "no driver named: %s" */
    | NoDriverNamed(name: string)
    /** "plugin file not found: %w" */
    | PluginFileNotFound(cause: Error)
    /** "failed to connect to plugin: %w" */
    | ConnectFailed(cause: Error)
    /** "failed to get plugin interface: %w" */
    | DispenseFailed(cause: Error)
    /** "failed to get plugin info: %w" */
    | InfoFailed(cause: Error)
    /** "failed to get plugin drivers: %w" */
    | DriversFailed(cause: Error)
    /** "plugin %s not found" */
    | PluginNotFound(name: string)
    /** "failed to reload plugin %s: %w" */
    | ReloadFailed(name: string, cause: Error)
    /** "failed to read plugin directory: %w" */
    | ReadDirFailed(cause: Error)
    /** "failed to convert <what> to map: %w", where what is storage, dir, file or args */
    | ConvertFailed(what: string, cause: Error)
}
