/**
 * The application settings the core reads. In the program they come from
 * environment variables with defaults; here they are a record passed to every
 * operation that reads them, and `Defaults()` holds the values used when no
 * variable is set.
 */
module Config {

  datatype Settings = Settings(
    debug: bool,
    toolUrl: string,
    loginUrl: string,
    launchUrl: string,
    jwksUrl: string,
    clientId: string,
    deploymentId: string,
    platformIssuer: string,
    platformAuthUrl: string,
    platformTokenUrl: string,
    platformJwksUrl: string,
    keyId: string,
    consumerKey: string,
    sharedSecret: string)

  /** The default of every platform-provided setting. */
  const Placeholder: string := "CHANGE_ME_MOODLE_WILL_PROVIDE_THIS"

  /** The settings when no environment variable is set (`DEBUG` defaults to true). */
  function Defaults(): Settings
  {
    Settings(
      debug := true,
      toolUrl := "http://localhost:8000",
      loginUrl := "http://localhost:8000/lti/login",
      launchUrl := "http://localhost:8000/lti/launch",
      jwksUrl := "http://localhost:8000/lti/jwks",
      clientId := Placeholder,
      deploymentId := Placeholder,
      platformIssuer := Placeholder,
      platformAuthUrl := Placeholder,
      platformTokenUrl := Placeholder,
      platformJwksUrl := Placeholder,
      keyId := "lti-key-1",
      consumerKey := "",
      sharedSecret := "")
  }
}
