/** The post-processing hook itself (`main` in main.go): read the settings
    from the environment, pick at most one message to send, and map the
    result of sending it to one of NZBGet's post-processing exit codes.

    The network is the parameter `server`: it gives the `Response` to each
    request the hook would send. Terminating the process is returning an
    `Outcome`. */
module Hook {
  import opened Wrappers
  import opened Environment
  import opened Slack
  import opened Message

  /** NZBGet's post-processing exit codes. */
  const PostprocessSuccess := 93
  const PostprocessError := 94
  const PostprocessNone := 95

  const TokenKey := "NZBPO_SLACKTOKEN"
  const ChannelKey := "NZBPO_SLACKCHANNEL"
  const PolicyKey := "NZBPO_SENDNOTIFICATION"
  const DebugKey := "NZBOP_SLACKNOTIFY_DEBUG"
  const CommandKey := "NZBCP_COMMAND"
  const StatusKey := "NZBPP_STATUS"
  const NameKey := "NZBPP_NZBNAME"

  const ConnectionTestCommand := "ConnectionTest"
  const ConnectionTestText := "Connection test"
  const FullSuccess := "SUCCESS/ALL"
  const OnFailureOnly := "OnFailure"

  /** The variables that can influence the outcome. */
  const ReadKeys := {TokenKey, ChannelKey, PolicyKey, CommandKey, StatusKey, NameKey}

  /** How one run ended: the exit code and the requests it sent, in order. */
  datatype Outcome = Outcome(exitCode: int, attempts: seq<Request>)

  /** Sends one message and exits on its result (`sendSlackMessage` followed
      by `os.Exit`): exactly one request, whose body is the five-field payload
      for the message and the channel and whose credential is the token; exit
      93 when it was delivered and 94 when it failed. */
  function Notify(msg: string, token: string, channel: string, server: Request -> Response): (o: Outcome)
    ensures |o.attempts| == 1
    ensures o.attempts[0].payload == Payload(msg, channel)
    ensures o.attempts[0].bearerToken == token
    ensures o.exitCode == PostprocessSuccess || o.exitCode == PostprocessError
    ensures o.exitCode == PostprocessSuccess <==> Classify(server(o.attempts[0])).Delivered?
    ensures o.exitCode == PostprocessError <==> !Classify(server(o.attempts[0])).Delivered?
  {
    var request := SlackRequest(msg, token, channel);
    Outcome(ExitAfter(request, server), [request])
  }

  /** The exit code that follows a send of `request`: 93 exactly when the
      server answered 200 with a readable body that decodes as an object
      whose `ok` entry is not the boolean false, 94 otherwise. */
  function ExitAfter(request: Request, server: Request -> Response): (code: int)
    ensures var r := server(request);
      code == PostprocessSuccess <==>
        && r.Received?
        && r.statusCode == StatusOK
        && r.body.Read?
        && r.body.decoded.Object?
        && Lookup(r.body.decoded.members, "ok") != Some(JBool(false))
    ensures code == PostprocessSuccess || code == PostprocessError
  {
    if Classify(server(request)).Delivered? then PostprocessSuccess else PostprocessError
  }

  /** `main`, with its checks in the source's order: credentials, then the
      connection-test command, then the notification policy, then the job
      message. Every path exits 93 or 94, never 95, after at most one send. */
  function Run(env: Env, server: Request -> Response): (o: Outcome)
    ensures o.exitCode == PostprocessSuccess || o.exitCode == PostprocessError
    ensures o.exitCode != PostprocessNone
    ensures |o.attempts| <= 1
  {
    var token := GetEnv(env, TokenKey, "");
    var channel := GetEnv(env, ChannelKey, "");
    var sendNotification := GetEnv(env, PolicyKey, "");
    if token == "" || channel == "" then Outcome(PostprocessError, [])
    else
      var command := GetEnv(env, CommandKey, "");
      if command == ConnectionTestCommand then Notify(ConnectionTestText, token, channel, server)
      else
        var status := GetEnv(env, StatusKey, "");
        var send := !(status == FullSuccess && sendNotification == OnFailureOnly);
        if send then
          var nzbname := GetEnv(env, NameKey, "");
          Notify(JobMessage(nzbname, status), token, channel, server)
        else Outcome(PostprocessSuccess, [])
  }

  /** The check at the top of `main`: both the token and the channel are set
      and not empty. */
  predicate CredentialsSet(env: Env): (b: bool)
    ensures b <==> TokenKey in env && env[TokenKey] != "" && ChannelKey in env && env[ChannelKey] != ""
  {
    GetEnv(env, TokenKey, "") != "" && GetEnv(env, ChannelKey, "") != ""
  }

  /** The policy check: a fully successful job with the on-failure policy.
      Both variables must be set, since an unset one reads as "". */
  predicate Suppressed(env: Env): (b: bool)
    ensures b <==> StatusKey in env && env[StatusKey] == FullSuccess && PolicyKey in env && env[PolicyKey] == OnFailureOnly
  {
    GetEnv(env, StatusKey, "") == FullSuccess && GetEnv(env, PolicyKey, "") == OnFailureOnly
  }

  /** A missing or empty token or channel ends the run with 94 and no send,
      whatever else is set; and that is the only way to exit 94 without
      sending. */
  lemma MissingCredentials(env: Env, server: Request -> Response)
    ensures !CredentialsSet(env) <==> Run(env, server) == Outcome(PostprocessError, [])
  {
  }

  /** With credentials, the connection test sends exactly "Connection test"
      and exits on that send alone. */
  lemma ConnectionTest(env: Env, server: Request -> Response)
    requires CredentialsSet(env) && GetEnv(env, CommandKey, "") == ConnectionTestCommand
    ensures var request := SlackRequest(ConnectionTestText, GetEnv(env, TokenKey, ""), GetEnv(env, ChannelKey, ""));
      Run(env, server) == Outcome(ExitAfter(request, server), [request])
  {
  }

  /** The connection test is decided before the job variables are read:
      changing the status, the policy or the name does not change its outcome. */
  lemma ConnectionTestIgnoresJob(env: Env, server: Request -> Response, status: string, policy: string, name: string)
    requires CredentialsSet(env) && GetEnv(env, CommandKey, "") == ConnectionTestCommand
    ensures Run(env[StatusKey := status][PolicyKey := policy][NameKey := name], server) == Run(env, server)
  {
  }

  /** The four-cell table: with credentials and no test command, nothing is
      sent exactly when the status is "SUCCESS/ALL" and the policy is
      "OnFailure", and then the run exits 93. */
  lemma SuppressionTable(env: Env, server: Request -> Response)
    requires CredentialsSet(env) && GetEnv(env, CommandKey, "") != ConnectionTestCommand
    ensures Run(env, server).attempts == [] <==> Suppressed(env)
    ensures Suppressed(env) ==> Run(env, server) == Outcome(PostprocessSuccess, [])
  {
  }

  /** In the other three cells the job notification is sent, with name and
      status inserted verbatim, and the exit code follows that send. */
  lemma JobNotification(env: Env, server: Request -> Response)
    requires CredentialsSet(env) && GetEnv(env, CommandKey, "") != ConnectionTestCommand
    requires !Suppressed(env)
    ensures var request := SlackRequest(JobMessage(GetEnv(env, NameKey, ""), GetEnv(env, StatusKey, "")),
                                        GetEnv(env, TokenKey, ""), GetEnv(env, ChannelKey, ""));
      Run(env, server) == Outcome(ExitAfter(request, server), [request])
  {
  }

  /** Every request the hook sends uses the configured token and channel. */
  lemma AttemptsUseSettings(env: Env, server: Request -> Response)
    ensures forall r :: r in Run(env, server).attempts ==>
      r.bearerToken == GetEnv(env, TokenKey, "") && r.payload[ChannelField] == GetEnv(env, ChannelKey, "")
  {
  }

  /** When the run exits 93: either a send was made and succeeded, or nothing
      was sent because the policy suppressed it. */
  lemma SuccessExit(env: Env, server: Request -> Response)
    ensures var o := Run(env, server);
      o.exitCode == PostprocessSuccess <==>
        CredentialsSet(env) &&
        ((o.attempts == [] && Suppressed(env) && GetEnv(env, CommandKey, "") != ConnectionTestCommand) ||
         (o.attempts != [] && Classify(server(o.attempts[0])).Delivered?))
  {
  }

  /** The debug switch only prints: setting or clearing it never changes the
      outcome. This holds by construction, since `Run` never reads the debug
      variable (the dump it guards is not modelled). */
  lemma DebugFlagIrrelevant(env: Env, server: Request -> Response, value: string)
    ensures Run(env[DebugKey := value], server) == Run(env, server)
    ensures Run(env - {DebugKey}, server) == Run(env, server)
  {
  }

  /** The outcome depends only on the values `getEnv` gives for the six
      variables that can affect it, all read with an empty default: an absent variable and an empty
      one are indistinguishable, and no other variable matters. */
  lemma OnlyReadVariablesMatter(env1: Env, env2: Env, server: Request -> Response)
    requires forall k :: k in ReadKeys ==> GetEnv(env1, k, "") == GetEnv(env2, k, "")
    ensures Run(env1, server) == Run(env2, server)
  {
  }

  /** A fully successful job with the on-failure policy: no send, exit 93. */
  lemma SuppressedScenario(server: Request -> Response)
    ensures Run(map[TokenKey := "T", ChannelKey := "C", StatusKey := FullSuccess,
                    NameKey := "Foo", PolicyKey := OnFailureOnly], server)
         == Outcome(PostprocessSuccess, [])
  {
  }

  /** A failed job with no policy set: one POST carrying the job
      notification for "Foo" with status "FAILURE", and the exit code follows
      it. */
  lemma FailureScenario(server: Request -> Response)
    ensures var request := SlackRequest(JobMessage("Foo", "FAILURE"), "T", "C");
      Run(map[TokenKey := "T", ChannelKey := "C", StatusKey := "FAILURE", NameKey := "Foo"], server)
      == Outcome(ExitAfter(request, server), [request])
  {
  }
}
