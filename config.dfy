/** The Django settings the core reads. They are loaded once at process start
    and never written by the core, so the model passes them as one value. */
module Config {
  import opened Json

  datatype Settings = Settings(
    /** Truthiness of `getattr(settings, 'TEST_RUN', False)`. */
    testRun: bool,
    /** `settings.TEST_USER_ID`, the uuid of the synthetic test user. */
    testUserId: Value,
    /** `settings.KAIRNIAL_AUTH_SERVER`, the authority's base URL. */
    authServer: string,
    /** `settings.KAIRNIAL_AUTHENTICATION_SCOPES`, the requested scopes. */
    scopes: seq<string>,
    /** `settings.CLIENT_ID_VARIABLE`, the name of the client-id path parameter. */
    clientIdVariable: string,
    /** The package's `JSON_CONTENT_TYPE` constant. */
    jsonContentType: string
  )
}
