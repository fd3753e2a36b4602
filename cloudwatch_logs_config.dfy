/**
 * The configuration resolver of cloudwatch_logs.go: credential-source
 * selection (`GetCredentials`) and the validation of the destination options
 * (`getCloudWatchLogsConfig`).
 *
 * The AWS credential providers are not modelled; a provider is described by
 * the constructor arguments the plugin passes to it, and whether its `Get`
 * succeeds is the oracle `retrieve`.
 */
module CloudWatchLogsConfig {
  import opened Wrappers
  import opened GoText

  /** A credentials provider, by the arguments it was built from. */
  datatype Provider =
    | SharedFile(filename: string, profile: string)            // credentials.NewSharedCredentials
    | Static(accessKeyID: string, secretKey: string, token: string)  // credentials.NewStaticCredentials
    | Environment                                               // credentials.NewEnvCredentials

  /** The ways `getCloudWatchLogsConfig` can refuse its options. */
  datatype ConfigError = CredentialsFailed | EmptyLogGroupName | EmptyLogStreamName | EmptyRegion {
    /** The text of the error the Go code builds with `fmt.Errorf`. */
    function Message(): string {
      match this
      case CredentialsFailed => "Failed to create credentials"
      case EmptyLogGroupName => "Cannot specify empty string to bucket name"
      case EmptyLogStreamName => "Cannot specify empty string to logStreamName"
      case EmptyRegion => "Cannot specify empty string to region"
    }
  }

  /** The resolved configuration, `cloudwatchLogsConfig`. */
  datatype Config = Config(
    credentials: Provider,
    logGroupName: string,
    logStreamName: string,
    region: string,
    autoCreateStream: bool,
    stateFile: string)

  /**
   * The provider `GetCredentials` builds: a shared credentials file exactly when a
   * file is named, static keys exactly when no file is named and either key is
   * given, the environment only when all three options are empty.
   */
  function CredentialSource(accessKeyID: string, secretKey: string, credential: string): (p: Provider)
    ensures p.SharedFile? <==> credential != ""
    ensures p.Static? <==> credential == "" && (accessKeyID != "" || secretKey != "")
    ensures p.Environment? <==> credential == "" && accessKeyID == "" && secretKey == ""
    ensures p.SharedFile? ==> p == SharedFile(credential, "default")
    ensures p.Static? ==> p == Static(accessKeyID, secretKey, "")
  {
    if credential != "" then SharedFile(credential, "default")
    else if !(accessKeyID == "" && secretKey == "") then Static(accessKeyID, secretKey, "")
    else Environment
  }

  /**
   * `GetCredentials`: builds one provider according to which options are set
   * and asks it for credentials; when that fails the result is an error, and no
   * other provider is tried.
   */
  function GetCredentials(accessKeyID: string, secretKey: string, credential: string,
                          retrieve: Provider -> bool): (r: Result<Provider, ConfigError>)
    ensures r.Ok? <==> retrieve(CredentialSource(accessKeyID, secretKey, credential))
    ensures r.Ok? ==> r.value == CredentialSource(accessKeyID, secretKey, credential)
    ensures r.Err? ==> r.error == CredentialsFailed
  {
    if credential != "" then
      var creds := SharedFile(credential, "default");
      if retrieve(creds) then Ok(creds) else Err(CredentialsFailed)
    else if !(accessKeyID == "" && secretKey == "") then
      var creds := Static(accessKeyID, secretKey, "");
      if retrieve(creds) then Ok(creds) else Err(CredentialsFailed)
    else
      var creds := Environment;
      if retrieve(creds) then Ok(creds) else Err(CredentialsFailed)
  }

  /**
   * Two oracles that agree on the selected provider give the same outcome:
   * there is no fallback from one source to another.
   */
  lemma NoCredentialFallback(accessKeyID: string, secretKey: string, credential: string,
                             retrieve1: Provider -> bool, retrieve2: Provider -> bool)
    requires retrieve1(CredentialSource(accessKeyID, secretKey, credential))
          == retrieve2(CredentialSource(accessKeyID, secretKey, credential))
    ensures GetCredentials(accessKeyID, secretKey, credential, retrieve1)
         == GetCredentials(accessKeyID, secretKey, credential, retrieve2)
  {
  }

  /**
   * The auto-create flag: `strconv.ParseBool` of the option, true when it does
   * not parse. (The Go code first sets true for an empty option; `ParseBool("")`
   * then fails, so that assignment is never overruled.)
   */
  function AutoCreateStream(option: string): (b: bool)
    ensures !b <==> option in FalseSpellings()
    ensures option == "" ==> b
  {
    match ParseBool(option)
    case Some(ok) => ok
    case None => true
  }

  /**
   * `getCloudWatchLogsConfig`: credentials first, then the group, the stream
   * and the region must be non-empty, in that order; the first check that fails
   * names the error.
   */
  function GetCloudWatchLogsConfig(accessID: string, secretKey: string, credential: string,
                                   logGroupName: string, logStreamName: string, region: string,
                                   autoCreateStream: string, stateFile: string,
                                   retrieve: Provider -> bool): (r: Result<Config, ConfigError>)
    ensures GetCredentials(accessID, secretKey, credential, retrieve).Err? ==> r == Err(CredentialsFailed)
    ensures GetCredentials(accessID, secretKey, credential, retrieve).Ok? ==>
      if logGroupName == "" then r == Err(EmptyLogGroupName)
      else if logStreamName == "" then r == Err(EmptyLogStreamName)
      else if region == "" then r == Err(EmptyRegion)
      else r.Ok?
    ensures r.Ok? ==>
      && r.value.credentials == CredentialSource(accessID, secretKey, credential)
      && r.value.logGroupName == logGroupName
      && r.value.logStreamName == logStreamName
      && r.value.region == region
      && r.value.autoCreateStream == (autoCreateStream !in FalseSpellings())
      && r.value.stateFile == stateFile
  {
    match GetCredentials(accessID, secretKey, credential, retrieve)
    case Err(_) => Err(CredentialsFailed)
    case Ok(creds) =>
      if logGroupName == "" then Err(EmptyLogGroupName)
      else if logStreamName == "" then Err(EmptyLogStreamName)
      else if region == "" then Err(EmptyRegion)
      else
        var state := if stateFile == "" then "" else stateFile;
        Ok(Config(creds, logGroupName, logStreamName, region, AutoCreateStream(autoCreateStream), state))
  }

  /** Whatever the other options, a credential failure is the error reported. */
  lemma CredentialsCheckedFirst(accessID: string, secretKey: string, credential: string,
                                logGroupName: string, logStreamName: string, region: string,
                                autoCreateStream: string, stateFile: string,
                                retrieve: Provider -> bool)
    requires !retrieve(CredentialSource(accessID, secretKey, credential))
    ensures GetCloudWatchLogsConfig(accessID, secretKey, credential, logGroupName, logStreamName,
                                    region, autoCreateStream, stateFile, retrieve) == Err(CredentialsFailed)
  {
  }

  /** A resolved configuration always names a group, a stream and a region. */
  lemma ResolvedConfigIsComplete(accessID: string, secretKey: string, credential: string,
                                 logGroupName: string, logStreamName: string, region: string,
                                 autoCreateStream: string, stateFile: string,
                                 retrieve: Provider -> bool)
    ensures var r := GetCloudWatchLogsConfig(accessID, secretKey, credential, logGroupName, logStreamName,
                                             region, autoCreateStream, stateFile, retrieve);
      r.Ok? <==> retrieve(CredentialSource(accessID, secretKey, credential))
                 && logGroupName != "" && logStreamName != "" && region != ""
  {
  }

  /**
   * The error text reported for refused options is the one of the first check
   * that fails, in the order credentials, group, stream, region.
   */
  lemma FirstFailingCheckMessage(accessID: string, secretKey: string, credential: string,
                                 logGroupName: string, logStreamName: string, region: string,
                                 autoCreateStream: string, stateFile: string,
                                 retrieve: Provider -> bool)
    ensures var r := GetCloudWatchLogsConfig(accessID, secretKey, credential, logGroupName, logStreamName,
                                             region, autoCreateStream, stateFile, retrieve);
      r.Err? ==>
        r.error.Message() ==
          if !retrieve(CredentialSource(accessID, secretKey, credential)) then "Failed to create credentials"
          else if logGroupName == "" then "Cannot specify empty string to bucket name"
          else if logStreamName == "" then "Cannot specify empty string to logStreamName"
          else "Cannot specify empty string to region"
  {
  }
}
