/**
  The execution policy a client carries (`org.autong.settings.Settings`): retry budget, delays,
  error and validation switches, page navigation switches and browser timeouts, with the builder
  defaults. Java `int` fields are kept as unbounded integers.
 */
module ExecutionSettings {

  datatype Timeout = Timeout(
    sleepTimeout: int,
    scriptTimeout: int,
    pageLoadTimeout: int,
    implicitlyWait: int,
    waitTimeout: int,
    waitInterval: int)

  datatype Settings = Settings(
    retry: bool,
    maxRetries: int,
    retryDelay: int,
    initialDelay: int,
    throwOnError: bool,
    enableValidator: bool,
    navigateToPage: bool,
    enableBaseUrlNavigation: bool,
    enableUrlNavigation: bool,
    timeout: Timeout)

  /** `Timeout.builder().build()`. */
  function DefaultTimeout(): Timeout {
    Timeout(100, 60000, 60000, 5000, 60000, 2000)
  }

  /** `Settings.builder().build()`. */
  function Default(): Settings {
    Settings(
      retry := true,
      maxRetries := 2,
      retryDelay := 1000,
      initialDelay := 0,
      throwOnError := true,
      enableValidator := true,
      navigateToPage := true,
      enableBaseUrlNavigation := true,
      enableUrlNavigation := false,
      timeout := DefaultTimeout())
  }
}
