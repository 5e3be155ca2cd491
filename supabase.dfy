/**
 * The backend client module: the configuration guard that runs when the
 * module loads, the configuration-readiness check and the error-message
 * extractor. Building the client itself and its options belong to the
 * backend's SDK and are not modelled.
 */
module Supabase {
  import opened Js

  /** The two environment values the client is built from. */
  datatype Environment = Environment(url: Option<string>, anonKey: Option<string>)

  /** The module once it has loaded: the configuration it captured. */
  datatype ClientModule = ClientModule(url: Option<string>, anonKey: Option<string>)

  /** The message of the error that aborts loading. */
  const MissingConfiguration: string :=
    "Missing Supabase environment variables. Please check your .env file."

  /** The message used when an error carries no text of its own. */
  const UnexpectedError: string := "An unexpected error occurred"

  /** `isSupabaseConfigured`: both captured values are present and non-empty. */
  function IsSupabaseConfigured(m: ClientModule): bool {
    Truthy(m.url) && Truthy(m.anonKey)
  }

  /**
   * Loading the module: it throws when either value is absent or empty, and
   * otherwise captures both. So every loaded module is configured.
   */
  function LoadModule(env: Environment): (r: Result<ClientModule, string>)
    ensures r.Failure? <==> env.url in {None, Some("")} || env.anonKey in {None, Some("")}
    ensures r.Failure? ==> r.error == MissingConfiguration
    ensures r.Success? ==> r.value.url == env.url && r.value.anonKey == env.anonKey
    ensures r.Success? ==> IsSupabaseConfigured(r.value)
  {
    if !Truthy(env.url) || !Truthy(env.anonKey) then
      Failure(MissingConfiguration)
    else
      Success(ClientModule(env.url, env.anonKey))
  }

  /** An environment loads exactly when the module it would capture is configured. */
  lemma ConfiguredIffLoads(env: Environment)
    ensures LoadModule(env).Success? <==> IsSupabaseConfigured(ClientModule(env.url, env.anonKey))
  {
  }

  /** The two fields of an error object that the extractor reads. */
  datatype ErrorFields = ErrorFields(message: Option<string>, errorDescription: Option<string>)

  /**
   * `handleSupabaseError`: the first non-empty of `message` and
   * `error_description`, else a fixed text; an absent error gets the fixed
   * text too. The result is never empty.
   */
  function HandleSupabaseError(error: Option<ErrorFields>): (m: string)
    ensures error.Some? && Truthy(error.value.message) ==> m == error.value.message.value
    ensures (error.Some? && !Truthy(error.value.message) && Truthy(error.value.errorDescription))
              ==> m == error.value.errorDescription.value
    ensures (error.None? || (!Truthy(error.value.message) && !Truthy(error.value.errorDescription)))
              ==> m == UnexpectedError
    ensures m != ""
  {
    if error.Some? && Truthy(error.value.message) then error.value.message.value
    else if error.Some? && Truthy(error.value.errorDescription) then error.value.errorDescription.value
    else UnexpectedError
  }

  /** An empty message is skipped, exactly as an absent one is. */
  lemma EmptyMessageIsSkipped(description: Option<string>)
    ensures HandleSupabaseError(Some(ErrorFields(Some(""), description)))
         == HandleSupabaseError(Some(ErrorFields(None, description)))
  {
  }
}
