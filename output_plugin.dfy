/**
 * The plugin's process-wide state and its entry points in
 * out_cloudwatch_logs.go: `FLBPluginInit` resolves the options, creates the
 * group and stream when asked to and seeds the sequence token from the state
 * file; `FLBPluginFlush` sends a batch record by record, threading the token
 * and persisting it.
 *
 * The Go globals `configCtx`, `cloudwatchLogs` and `sequenceTokenCtx`, and the
 * local file system, are the fields of one `CloudWatchLogsPlugin` object.
 */
module OutputPlugin {
  import opened Wrappers
  import opened GoText
  import opened CloudWatchLogsConfig
  import opened StateToken
  import opened Records
  import opened Delivery

  /** A call the plugin makes into fluent-bit, the process or CloudWatch Logs during start-up. */
  datatype HostCall =
    | Unregister
    | Exit(code: int)
    | CreateLogGroup(logGroupName: string)
    | CreateLogStream(logGroupName: string, logStreamName: string)

  /** The CloudWatch Logs client: the session's credentials and region. */
  datatype Client = Client(credentials: Provider, region: string)

  /** `FLBPluginConfigKey`: the value of an option, the empty string when it is not set. */
  function ConfigKey(options: map<string, string>, key: string): (value: string)
    ensures key !in options ==> value == ""
    ensures key in options ==> value == options[key]
  {
    if key in options then options[key] else ""
  }

  /**
   * The configuration `FLBPluginInit` resolves from the plugin options. The
   * "LogGroupName" option is read into the variable passed as the stream name and
   * "LogStreamName" into the one passed as the group name, so the two options
   * end up swapped.
   */
  function ResolveOptions(options: map<string, string>, retrieve: Provider -> bool): (r: Result<Config, ConfigError>)
    ensures r.Ok? ==>
      && r.value.logGroupName == ConfigKey(options, "LogStreamName")
      && r.value.logStreamName == ConfigKey(options, "LogGroupName")
      && r.value.region == ConfigKey(options, "Region")
      && r.value.stateFile == ConfigKey(options, "StateFile")
      && r.value.autoCreateStream == (ConfigKey(options, "AutoCreateStream") !in FalseSpellings())
      && r.value.credentials == CredentialSource(ConfigKey(options, "AccessKeyID"), ConfigKey(options, "SecretAccessKey"),
                                                 ConfigKey(options, "Credential"))
    ensures r.Ok? <==>
      && retrieve(CredentialSource(ConfigKey(options, "AccessKeyID"), ConfigKey(options, "SecretAccessKey"),
                                   ConfigKey(options, "Credential")))
      && ConfigKey(options, "LogGroupName") != ""
      && ConfigKey(options, "LogStreamName") != ""
      && ConfigKey(options, "Region") != ""
  {
    var credential := ConfigKey(options, "Credential");
    var accessKeyID := ConfigKey(options, "AccessKeyID");
    var secretAccessKey := ConfigKey(options, "SecretAccessKey");
    var logStreamName := ConfigKey(options, "LogGroupName");
    var logGroupName := ConfigKey(options, "LogStreamName");
    var region := ConfigKey(options, "Region");
    var autoCreateStream := ConfigKey(options, "AutoCreateStream");
    var stateFile := ConfigKey(options, "StateFile");
    GetCloudWatchLogsConfig(accessKeyID, secretAccessKey, credential, logGroupName, logStreamName,
                            region, autoCreateStream, stateFile, retrieve)
  }

  /** The start-up calls made for a resolved configuration: group then stream, only when auto-create is on. */
  function ProvisioningCalls(conf: PluginConf): (calls: seq<HostCall>)
    ensures calls != [] <==> conf.autoCreateStream
    ensures |calls| <= 2
    ensures calls != [] ==>
      calls[0] == CreateLogGroup(conf.logGroupName)
      && calls[|calls| - 1] == CreateLogStream(conf.logGroupName, conf.logStreamName)
  {
    if conf.autoCreateStream then [CreateLogGroup(conf.logGroupName), CreateLogStream(conf.logGroupName, conf.logStreamName)]
    else []
  }

  /**
   * The token held after start-up: the one read from the state file when that
   * is not empty, otherwise the one held before.
   */
  function SeededToken(files: FileSystem, conf: PluginConf, current: string): (token: string)
    ensures ReadStateToken(files, conf.stateFile, conf.logStreamName) != "" ==>
      token == ReadStateToken(files, conf.stateFile, conf.logStreamName)
    ensures ReadStateToken(files, conf.stateFile, conf.logStreamName) == "" ==> token == current
  {
    var stored := ReadStateToken(files, conf.stateFile, conf.logStreamName);
    if stored != "" then stored else current
  }

  /** `cloudWatchLogsConf` as `FLBPluginInit` copies it out of a resolved configuration. */
  function PluginConfOf(config: Config): (conf: PluginConf)
    ensures conf.logGroupName == config.logGroupName && conf.logStreamName == config.logStreamName
    ensures conf.autoCreateStream == config.autoCreateStream && conf.stateFile == config.stateFile
  {
    PluginConf(config.logGroupName, config.logStreamName, config.autoCreateStream, config.stateFile)
  }

  class CloudWatchLogsPlugin {
    var configCtx: Option<PluginConf>   // nil until start-up succeeds
    var cloudwatchLogs: Option<Client>  // nil until start-up succeeds
    var sequenceTokenCtx: string        // the token for the next PutLogEvents
    var files: FileSystem               // the local file system

    /** The state of a freshly loaded plugin on a given file system. */
    constructor (files: FileSystem)
      ensures configCtx == None && cloudwatchLogs == None
      ensures sequenceTokenCtx == "" && this.files == files
    {
      configCtx := None;
      cloudwatchLogs := None;
      sequenceTokenCtx := "";
      this.files := files;
    }

    /**
     * `FLBPluginInit`. On a configuration error: unregister, exit(1) and
     * FLB_ERROR, nothing else changes. Otherwise the plugin is set up for the
     * resolved configuration by `Start`.
     */
    method Init(options: map<string, string>, retrieve: Provider -> bool) returns (ret: FlbStatus, calls: seq<HostCall>)
      modifies this
      ensures ResolveOptions(options, retrieve).Err? ==>
        && ret == FlbError && calls == [Unregister, Exit(1)]
        && configCtx == old(configCtx) && cloudwatchLogs == old(cloudwatchLogs)
        && sequenceTokenCtx == old(sequenceTokenCtx) && files == old(files)
      ensures ResolveOptions(options, retrieve).Ok? ==>
        && ret == FlbOk
        && configCtx == Some(PluginConfOf(ResolveOptions(options, retrieve).value))
        && cloudwatchLogs == Some(Client(ResolveOptions(options, retrieve).value.credentials,
                                         ResolveOptions(options, retrieve).value.region))
        && calls == ProvisioningCalls(PluginConfOf(ResolveOptions(options, retrieve).value))
        && sequenceTokenCtx == SeededToken(old(files), PluginConfOf(ResolveOptions(options, retrieve).value),
                                           old(sequenceTokenCtx))
        && files == old(files)
    {
      var resolved := ResolveOptions(options, retrieve);
      if resolved.Err? {
        calls := [Unregister, Exit(1)];
        return FlbError, calls;
      }
      calls := Start(resolved.value);
      ret := FlbOk;
    }

    /**
     * The rest of `FLBPluginInit` once the configuration is resolved: keep the
     * client and the configuration, create the group and then the stream when
     * auto-create is on (their failures are only printed), and take the token
     * read from the state file when it is not empty. The state file is read even
     * when no state path is configured, from `StateFileFor("", stream)`: "_"
     * followed by the stream name with every "/" turned into "-".
     */
    method Start(config: Config) returns (calls: seq<HostCall>)
      modifies this`configCtx, this`cloudwatchLogs, this`sequenceTokenCtx
      ensures configCtx == Some(PluginConfOf(config))
      ensures cloudwatchLogs == Some(Client(config.credentials, config.region))
      ensures calls == ProvisioningCalls(PluginConfOf(config))
      ensures sequenceTokenCtx == SeededToken(files, PluginConfOf(config), old(sequenceTokenCtx))
    {
      cloudwatchLogs := Some(Client(config.credentials, config.region));
      var conf := PluginConfOf(config);
      configCtx := Some(conf);

      calls := [];
      if conf.autoCreateStream {
        calls := calls + [CreateLogGroup(conf.logGroupName)];
      }
      if conf.autoCreateStream {
        calls := calls + [CreateLogStream(conf.logGroupName, conf.logStreamName)];
      }
      assert calls == ProvisioningCalls(conf);

      var nextToken := ReadStateToken(files, conf.stateFile, conf.logStreamName);
      if nextToken != "" {
        sequenceTokenCtx := nextToken;
      }
    }

    /** `storeStateToken`: overwrite the stream's state file with the token; no other file changes. */
    method StoreStateToken(stateFile: string, logStreamName: string, nextSequenceToken: string)
      modifies this`files
      ensures files == AfterStore(old(files), stateFile, logStreamName, nextSequenceToken)
    {
      var filename := StateFileFor(stateFile, logStreamName);
      files := files[filename := nextSequenceToken];
    }

    /**
     * `FLBPluginFlush` over the decoded entries of a batch; `puts` lists the
     * requests sent, in order. The outcome is `Run`'s, whose lemmas give the
     * token protocol.
     */
    method Flush(entries: seq<Entry>, s: Services) returns (ret: FlbStatus, puts: seq<PutRequest>)
      requires configCtx.Some?
      modifies this`sequenceTokenCtx, this`files
      ensures var r := Run(configCtx.value, entries, old(sequenceTokenCtx), old(files), s);
        ret == r.status && puts == r.puts && sequenceTokenCtx == r.token && files == r.files
    {
      var conf := configCtx.value;
      ghost var start := Run(conf, entries, sequenceTokenCtx, files, s);
      assert start == Prepend([], Deliver(conf, Outgoing(entries, 0, s), sequenceTokenCtx, files, 0, s.put));
      var i := 0;
      puts := [];
      while i < |entries| && entries[i].status == 0
        invariant 0 <= i <= |entries|
        invariant start == Prepend(puts, Deliver(conf, Outgoing(entries, i, s), sequenceTokenCtx, files, |puts|, s.put))
        decreases |entries| - i
      {
        var entry := entries[i];
        var timestamp := TimestampOf(entry.ts, s.clock(i));
        var line, failed := CreateJSON(entry.record, s.marshal);
        if failed {
          // the record is skipped
          assert Outgoing(entries, i, s) == Outgoing(entries, i + 1, s);
          i := i + 1;
          continue;
        }
        ghost var lines := Outgoing(entries, i, s);
        assert lines == [Line(timestamp, line)] + Outgoing(entries, i + 1, s);
        var req := PutLogEventsInput(conf, timestamp, line, sequenceTokenCtx);
        var reply := s.put(|puts|, req);
        if reply.PutFailed? {
          assert Deliver(conf, lines, sequenceTokenCtx, files, |puts|, s.put)
              == FlushResult(FlbRetry, sequenceTokenCtx, files, [req]);
          PrependTwice(puts, [req], FlushResult(FlbRetry, sequenceTokenCtx, files, []));
          puts := puts + [req];
          return FlbRetry, puts;
        }
        ghost var rest := Deliver(conf, lines[1..], NextSequenceToken(reply.response),
                                  Persist(conf, files, NextSequenceToken(reply.response)), |puts| + 1, s.put);
        assert Deliver(conf, lines, sequenceTokenCtx, files, |puts|, s.put) == Prepend([req], rest);
        PrependTwice(puts, [req], rest);
        puts := puts + [req];
        sequenceTokenCtx := NextSequenceToken(reply.response);
        if conf.stateFile != "" {
          StoreStateToken(conf.stateFile, conf.logStreamName, sequenceTokenCtx);
        }
        i := i + 1;
      }
      ret := FlbOk;
      assert Outgoing(entries, i, s) == [];
    }
  }
}
