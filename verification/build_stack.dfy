/** cli/build_stack.py: the command-line entry point that checks the credentials, creates
    the EC2 key pair, fills in the template parameters, deploys the stack and prints how to
    reach the instance. Arguments, environment, clock and AWS replies are passed in as values. */
module BuildStack {
  import opened Python
  import opened Cloud
  import HourStamp
  import opened StackUtils

  const STACK_TEMPLATE_FILE := "./templates/stack.yaml"
  const DEFAULT_KEYPAIR_SAVE_PATH := "."
  /** The mode 0o400: read-only for the owner. */
  const OWNER_READ_ONLY: nat := 256
  const CREDENTIALS_MESSAGE := "AWS credentials must be provided either through CLI or .env file"
  /** What Python raises when `None` is unpacked into two names. */
  const UNPACK_MESSAGE := "cannot unpack non-iterable NoneType object"
  const KEYPAIR_SUFFIX := "-keypair"
  const PUBLIC_IP_KEY := "PublicIP"

  /** The template parameter keys, in the order main lists them. */
  const PARAMETER_ORDER: seq<string> := ["Region", "HostedZoneId", "HostedZoneName", "InstanceType",
    "KeyPairName", "SubdomainName", "BasicAuthUser", "BasicAuthPassword"]

  /** The parsed command line; the options argparse requires are plain strings. */
  datatype Args = Args(
    accessKey: Option<string>,
    secretKey: Option<string>,
    region: string,
    stackName: string,
    instanceType: string,
    hostedZoneId: string,
    hostedZoneName: string,
    basicAuthUsername: string,
    basicAuthPassword: string,
    keypairName: Option<string>,
    keypairSavePath: string      // DEFAULT_KEYPAIR_SAVE_PATH when the option is absent
  )

  /** The variables os.getenv reads (after the .env file is loaded); None when unset. */
  datatype Env = Env(accessKeyId: Option<string>, secretAccessKey: Option<string>, region: Option<string>)

  // ---------------------------------------------------------------------------
  // get_stack_outputs (this script's own variant)

  /** What this script's get_stack_outputs returns: None on a ClientError and also when no
      stack is listed; KeyError when the first stack has no `Outputs`; otherwise the dict. */
  function QueryResult(reply: Reply<seq<StackDescription>>): Outcome<Option<Dict>>
  {
    match reply
    case Err(_) => Returned(None)
    case Ok(stacks) =>
      if stacks == [] then Returned(None)
      else match stacks[0].outputs
        case None => Raised(KeyError("Outputs"))
        case Some(outs) => Returned(Some(ToDict(outs)))
  }

  /** get_stack_outputs: one describe_stacks call; the outputs are gathered without printing them,
      and a ClientError is printed and answered with None. */
  method GetStackOutputs(stackName: string, reply: Reply<seq<StackDescription>>)
    returns (r: Outcome<Option<Dict>>, events: seq<Event>)
    ensures r == QueryResult(reply)
    ensures reply.Err? ==> events == [DescribeStacks(stackName), Print(QueryError(reply.error))]
    ensures reply.Ok? ==> events == [DescribeStacks(stackName)]
  {
    events := [DescribeStacks(stackName)];
    match reply
    case Err(e) =>
      events := events + [Print(QueryError(e))];
      r := Returned(None);
    case Ok(stacks) =>
      if stacks == [] {
        r := Returned(None);
      } else {
        match stacks[0].outputs
        case None =>
          r := Raised(KeyError("Outputs"));
        case Some(outs) =>
          r := Returned(Some(ToDict(outs)));
      }
  }

  /** The two get_stack_outputs agree on every reply except an empty stack list, where this
      script's returns None and the one in cli/utils/stack.py raises IndexError. */
  lemma OutputReadersDiffer(reply: Reply<seq<StackDescription>>)
    ensures QueryResult(reply) != OutputsResult(reply) <==> reply == Ok([])
    ensures reply == Ok([]) ==>
      QueryResult(reply) == Returned(None) && OutputsResult(reply) == Raised(IndexError(INDEX_MESSAGE))
  {
  }

  // ---------------------------------------------------------------------------
  // Key pair

  /** generate_keypair_name: the stack name, a dash, the date-hour stamp and "-keypair". The name
      splits back into the stack name and the clock reading. */
  function GenerateKeypairName(stackName: string, now: HourStamp.DateHour): (name: string)
    requires now.Valid()
    ensures |name| == |stackName| + 19
    ensures name[..|stackName|] == stackName && name[|stackName|] == '-'
    ensures name[|stackName| + 11..] == KEYPAIR_SUFFIX
    ensures forall i :: |stackName| < i < |stackName| + 11 ==> HourStamp.IsDigit(name[i])
    ensures HourStamp.ParseStamp(name[|stackName| + 1..|stackName| + 11]) == now
  {
    var stamp := HourStamp.Stamp(now);
    var name := stackName + "-" + stamp + KEYPAIR_SUFFIX;
    var n := |stackName|;
    assert name[n + 1..n + 11] == stamp;
    assert name[n + 11..] == KEYPAIR_SUFFIX;
    HourStamp.StampRoundTrip(now);
    name
  }

  /** Different stacks, or the same stack in different hours, get different generated names. */
  lemma GeneratedNameInjective(s1: string, d1: HourStamp.DateHour, s2: string, d2: HourStamp.DateHour)
    requires d1.Valid() && d2.Valid()
    requires GenerateKeypairName(s1, d1) == GenerateKeypairName(s2, d2)
    ensures s1 == s2 && d1 == d2
  {
    var n := |s1|;
    assert s1 == GenerateKeypairName(s1, d1)[..n];
    assert d1 == HourStamp.ParseStamp(GenerateKeypairName(s1, d1)[n + 1..n + 11]);
  }

  /** `args.keypair_name or generate_keypair_name(args.stack_name)`. */
  function ChooseKeypairName(args: Args, now: HourStamp.DateHour): (name: string)
    requires now.Valid()
    ensures name != ""
    ensures Truthy(args.keypairName) ==> name == args.keypairName.value
    ensures !Truthy(args.keypairName) ==> name == GenerateKeypairName(args.stackName, now)
  {
    Or(args.keypairName, Some(GenerateKeypairName(args.stackName, now))).value
  }

  /** Where create_keypair saves the private key. */
  function KeyFilePath(savePath: string, keyName: string): (path: string)
    ensures |path| == |savePath| + |keyName| + 5
    ensures path[..|savePath|] == savePath && path[|savePath|] == '/'
    ensures path[|savePath| + 1..|path| - 4] == keyName && path[|path| - 4..] == ".pem"
  {
    savePath + "/" + keyName + ".pem"
  }

  /** In one directory, different key pairs are saved to different files. */
  lemma KeyFilePathInjective(savePath: string, name1: string, name2: string)
    requires KeyFilePath(savePath, name1) == KeyFilePath(savePath, name2)
    ensures name1 == name2
  {
  }

  /** With the default save path, key pair `k` is saved to "./k.pem" for every name `k`. */
  lemma DefaultKeyFilePath(k: string)
    ensures KeyFilePath(DEFAULT_KEYPAIR_SAVE_PATH, k) == "./" + k + ".pem"
  {
  }

  /** The effects of create_keypair: the create_key_pair call; on success the key material
      written to the key file, the file made owner-read-only and the success line; on a
      ClientError the error line. */
  function KeypairTrace(keyName: string, savePath: string, reply: Reply<string>): seq<Event>
  {
    var path := KeyFilePath(savePath, keyName);
    [CreateKeyPair(keyName)] +
    match reply
    case Ok(material) => [WriteFile(path, material), Chmod(path, OWNER_READ_ONLY), Print(KeyPairCreated(keyName, path))]
    case Err(e) => [Print(KeyPairError(e))]
  }

  /** The private key is written when, and only when, the key pair was created: to the key
      file, with the key material AWS returned, and the very next step makes that file
      owner-read-only. A failed creation writes and chmods nothing. */
  lemma KeypairTraceWrites(keyName: string, savePath: string, reply: Reply<string>)
    ensures var t := KeypairTrace(keyName, savePath, reply);
      t[0] == CreateKeyPair(keyName) &&
      forall i | 0 <= i < |t| && t[i].WriteFile? ::
        reply.Ok? && t[i] == WriteFile(KeyFilePath(savePath, keyName), reply.value) &&
        i + 1 < |t| && t[i + 1] == Chmod(KeyFilePath(savePath, keyName), OWNER_READ_ONLY)
    ensures var t := KeypairTrace(keyName, savePath, reply);
      reply.Ok? ==>
        WriteFile(KeyFilePath(savePath, keyName), reply.value) in t &&
        Chmod(KeyFilePath(savePath, keyName), OWNER_READ_ONLY) in t
    ensures var t := KeypairTrace(keyName, savePath, reply);
      reply.Err? ==> forall e | e in t :: !e.WriteFile? && !e.Chmod?
  {
  }

  /** create_keypair: the name and key file path on success, None on a ClientError. The name
      asked for is the name returned. */
  method CreateKeypair(keyName: string, savePath: string, reply: Reply<string>)
    returns (r: Option<(string, string)>, events: seq<Event>)
    ensures r.Some? <==> reply.Ok?
    ensures r.Some? ==> r.value == (keyName, KeyFilePath(savePath, keyName))
    ensures events == KeypairTrace(keyName, savePath, reply)
  {
    events := [CreateKeyPair(keyName)];
    match reply
    case Ok(material) =>
      var path := savePath + "/" + keyName + ".pem";
      events := events + [WriteFile(path, material)];
      events := events + [Chmod(path, OWNER_READ_ONLY)];
      events := events + [Print(KeyPairCreated(keyName, path))];
      r := Some((keyName, path));
    case Err(e) =>
      events := events + [Print(KeyPairError(e))];
      r := None;
  }

  // ---------------------------------------------------------------------------
  // main

  /** `not (aws_access_key_id and aws_secret_access_key)` is false: each credential comes from
      the command line or, failing that, from the environment. */
  predicate CredentialsPresent(args: Args, env: Env)
  {
    Truthy(Or(args.accessKey, env.accessKeyId)) && Truthy(Or(args.secretKey, env.secretAccessKey))
  }

  /** Credentials are present exactly when each of the two is non-empty in at least one source. */
  lemma CredentialsPresentIff(args: Args, env: Env)
    ensures CredentialsPresent(args, env) <==>
      (Truthy(args.accessKey) || Truthy(env.accessKeyId)) && (Truthy(args.secretKey) || Truthy(env.secretAccessKey))
  {
  }

  /** The region the session is opened in: the --region option, or AWS_REGION when it is empty. */
  function SessionRegion(args: Args, env: Env): (region: Option<string>)
    ensures args.region != "" ==> region == Some(args.region)
    ensures args.region == "" ==> region == env.region
  {
    Or(Some(args.region), env.region)
  }

  /** The template parameter list main builds. */
  function TemplateParameters(args: Args, keyName: string): (ps: seq<Parameter>)
    ensures |ps| == |PARAMETER_ORDER|
    ensures forall i :: 0 <= i < |ps| ==> ps[i].key == PARAMETER_ORDER[i]
  {
    [ Parameter("Region", args.region),
      Parameter("HostedZoneId", args.hostedZoneId),
      Parameter("HostedZoneName", args.hostedZoneName),
      Parameter("InstanceType", args.instanceType),
      Parameter("KeyPairName", keyName),
      Parameter("SubdomainName", args.stackName),
      Parameter("BasicAuthUser", args.basicAuthUsername),
      Parameter("BasicAuthPassword", args.basicAuthPassword) ]
  }

  /** The value of the first entry with the key `key`. */
  function ParameterValue(ps: seq<Parameter>, key: string): Option<string>
  {
    if ps == [] then None
    else if ps[0].key == key then Some(ps[0].value)
    else ParameterValue(ps[1..], key)
  }

  /** An entry whose key no earlier entry has gives the value for that key. */
  lemma {:induction false} ParameterValueFirst(ps: seq<Parameter>, i: nat)
    requires i < |ps|
    requires forall j :: 0 <= j < i ==> ps[j].key != ps[i].key
    ensures ParameterValue(ps, ps[i].key) == Some(ps[i].value)
  {
    if i > 0 {
      forall j | 0 <= j < i - 1 ensures ps[1..][j].key != ps[1..][i - 1].key {
        assert ps[1..][j] == ps[j + 1];
      }
      ParameterValueFirst(ps[1..], i - 1);
    }
  }

  /** No two template parameters share a key. */
  lemma ParameterKeysDistinct()
    ensures forall i, j :: 0 <= i < j < |PARAMETER_ORDER| ==> PARAMETER_ORDER[i] != PARAMETER_ORDER[j]
  {
    forall i, j | 0 <= i < j < |PARAMETER_ORDER| ensures PARAMETER_ORDER[i] != PARAMETER_ORDER[j] {
      assert PARAMETER_ORDER[i][0] != PARAMETER_ORDER[j][0] || |PARAMETER_ORDER[i]| != |PARAMETER_ORDER[j]|;
    }
  }

  /** Each parameter key occurs once, so every value reaches the template unambiguously: the
      key pair created, the stack name as subdomain, and the --region option as given (not the
      AWS_REGION fallback), besides the zone, instance type and basic-auth options. */
  lemma TemplateParameterValues(args: Args, keyName: string)
    ensures var ps := TemplateParameters(args, keyName);
      ParameterValue(ps, "Region") == Some(args.region) &&
      ParameterValue(ps, "HostedZoneId") == Some(args.hostedZoneId) &&
      ParameterValue(ps, "HostedZoneName") == Some(args.hostedZoneName) &&
      ParameterValue(ps, "InstanceType") == Some(args.instanceType)
    ensures var ps := TemplateParameters(args, keyName);
      ParameterValue(ps, "KeyPairName") == Some(keyName) &&
      ParameterValue(ps, "SubdomainName") == Some(args.stackName) &&
      ParameterValue(ps, "BasicAuthUser") == Some(args.basicAuthUsername) &&
      ParameterValue(ps, "BasicAuthPassword") == Some(args.basicAuthPassword)
  {
    var ps := TemplateParameters(args, keyName);
    ParameterKeysDistinct();
    ParameterValueFirst(ps, 0);
    ParameterValueFirst(ps, 1);
    ParameterValueFirst(ps, 2);
    ParameterValueFirst(ps, 3);
    ParameterValueFirst(ps, 4);
    ParameterValueFirst(ps, 5);
    ParameterValueFirst(ps, 6);
    ParameterValueFirst(ps, 7);
  }

  /** `dict.get(key)`. */
  function Get(d: Dict, key: string): Option<string>
  {
    if key in d then Some(d[key]) else None
  }

  /** The SSH command line for the instance: "ssh -i", the key file, and the login at the address. */
  function SshCommand(keyPath: string, ip: string): (c: string)
    ensures |c| == |keyPath| + |ip| + 15
    ensures c[..7] == "ssh -i " && c[7..7 + |keyPath|] == keyPath
    ensures c[7 + |keyPath|..|c| - |ip|] == " ubuntu@" && c[|c| - |ip|..] == ip
  {
    "ssh -i " + keyPath + " ubuntu@" + ip
  }

  /** The web address of the deployed site: HTTPS on the stack's subdomain of the hosted zone. */
  function WebAddress(stackName: string, hostedZoneName: string): (url: string)
    ensures |url| == |stackName| + |hostedZoneName| + 9
    ensures url[..8] == "https://" && url[8..8 + |stackName|] == stackName
    ensures url[8 + |stackName|] == '.' && url[9 + |stackName|..] == hostedZoneName
  {
    "https://" + stackName + "." + hostedZoneName
  }

  /** The closing lines of main for the outputs deploy_stack returned. They are printed exactly
      when the outputs hold a non-empty PublicIP (the emptiness test on the dict adds nothing),
      and are the SSH command with that address followed by the web address. */
  function ReportMessages(outputs: Option<Dict>, keyPath: string, args: Args): (ms: seq<Message>)
    ensures ms != [] <==> outputs.Some? && PUBLIC_IP_KEY in outputs.value && outputs.value[PUBLIC_IP_KEY] != ""
    ensures ms != [] ==>
      ms == [SshCommandLine(SshCommand(keyPath, outputs.value[PUBLIC_IP_KEY])),
             WebAddressLine(WebAddress(args.stackName, args.hostedZoneName))]
  {
    if outputs.Some? && PUBLIC_IP_KEY in outputs.value then
      assert |outputs.value| > 0 by {
        assert PUBLIC_IP_KEY in outputs.value.Keys;
      }
      if |outputs.value| > 0 && Truthy(Get(outputs.value, PUBLIC_IP_KEY)) then
        [SshCommandLine(SshCommand(keyPath, outputs.value[PUBLIC_IP_KEY])),
         WebAddressLine(WebAddress(args.stackName, args.hostedZoneName))]
      else []
    else []
  }

  /** The SSH report line as printed. */
  lemma SshLineText(keyPath: string, ip: string)
    ensures Text(SshCommandLine(SshCommand(keyPath, ip))) == "SSH command: ssh -i " + keyPath + " ubuntu@" + ip
  {
    var c := SshCommand(keyPath, ip);
    assert Text(SshCommandLine(c)) == "SSH command: " + c;
    assert "SSH command: " + c == "SSH command: " + ("ssh -i " + keyPath + " ubuntu@" + ip);
  }

  /** The web-address report line as printed. */
  lemma WebLineText(stackName: string, hostedZoneName: string)
    ensures Text(WebAddressLine(WebAddress(stackName, hostedZoneName))) ==
      "Web address: https://" + stackName + "." + hostedZoneName
  {
    var url := WebAddress(stackName, hostedZoneName);
    assert Text(WebAddressLine(url)) == "Web address: " + url;
    assert "Web address: " + url == "Web address: " + ("https://" + stackName + "." + hostedZoneName);
  }

  /** How main ends: ValueError without credentials; TypeError when create_keypair returns None
      (unpacking None); otherwise as deploy_stack ends. */
  function RunResult(args: Args, env: Env, keyReply: Reply<string>, cfn: CloudFormation): Outcome<()>
  {
    if !CredentialsPresent(args, env) then Raised(ValueError(CREDENTIALS_MESSAGE))
    else if keyReply.Err? then Raised(TypeError(UNPACK_MESSAGE))
    else match DeployedOutputs(cfn)
      case Raised(e) => Raised(e)
      case StillPolling => StillPolling
      case Returned(_) => Returned(())
  }

  /** The effects of main up to the key pair: the session, then create_keypair. */
  function RunStart(args: Args, env: Env, keyName: string, keyReply: Reply<string>): seq<Event>
  {
    [InitSession(SessionRegion(args, env))] + KeypairTrace(keyName, args.keypairSavePath, keyReply)
  }

  /** The closing lines main prints for what deploy_stack ends with. */
  function RunReport(args: Args, keyName: string, cfn: CloudFormation): seq<Event>
  {
    var outputs := DeployedOutputs(cfn);
    if outputs.Returned? then Printed(ReportMessages(outputs.value, KeyFilePath(args.keypairSavePath, keyName), args)) else []
  }

  /** The effects of main, in order. */
  function RunTrace(args: Args, env: Env, now: HourStamp.DateHour, keyReply: Reply<string>, template: string, cfn: CloudFormation): seq<Event>
    requires now.Valid()
  {
    if !CredentialsPresent(args, env) then []
    else
      var keyName := ChooseKeypairName(args, now);
      if keyReply.Err? then RunStart(args, env, keyName, keyReply)
      else
        RunStart(args, env, keyName, keyReply) +
        DeployTrace(args.stackName, STACK_TEMPLATE_FILE, template, TemplateParameters(args, keyName), cfn) +
        RunReport(args, keyName, cfn)
  }

  /** Opening the session and creating the key pair make no CloudFormation call. */
  lemma StartMakesNoStackCalls(args: Args, env: Env, keyName: string, keyReply: Reply<string>)
    ensures Count(RunStart(args, env, keyName, keyReply), DescribeKind) == 0
    ensures Count(RunStart(args, env, keyName, keyReply), SubmitKind) == 0
  {
    CountAbsent(RunStart(args, env, keyName, keyReply), DescribeKind);
    CountAbsent(RunStart(args, env, keyName, keyReply), SubmitKind);
  }

  /** Missing credentials stop main before any session, key pair or stack call. */
  lemma NoCredentialsNoCalls(args: Args, env: Env, now: HourStamp.DateHour, keyReply: Reply<string>, template: string, cfn: CloudFormation)
    requires now.Valid()
    requires !CredentialsPresent(args, env)
    ensures RunResult(args, env, keyReply, cfn) == Raised(ValueError(CREDENTIALS_MESSAGE))
    ensures RunTrace(args, env, now, keyReply, template, cfn) == []
  {
  }

  /** With credentials, main opens the session and then always creates a key pair, under the
      name given on the command line or else the generated one. */
  lemma KeypairAlwaysCreated(args: Args, env: Env, now: HourStamp.DateHour, keyReply: Reply<string>, template: string, cfn: CloudFormation)
    requires now.Valid()
    requires CredentialsPresent(args, env)
    ensures var t := RunTrace(args, env, now, keyReply, template, cfn);
      |t| >= 2 && t[0] == InitSession(SessionRegion(args, env)) &&
      t[1] == CreateKeyPair(if Truthy(args.keypairName) then args.keypairName.value else GenerateKeypairName(args.stackName, now))
  {
  }

  /** A failed key pair creation ends main with a TypeError, before CloudFormation is contacted. */
  lemma KeypairFailureStops(args: Args, env: Env, now: HourStamp.DateHour, keyReply: Reply<string>, template: string, cfn: CloudFormation)
    requires now.Valid()
    requires CredentialsPresent(args, env) && keyReply.Err?
    ensures RunResult(args, env, keyReply, cfn) == Raised(TypeError(UNPACK_MESSAGE))
    ensures var t := RunTrace(args, env, now, keyReply, template, cfn);
      Count(t, DescribeKind) == 0 && Count(t, SubmitKind) == 0
  {
    StartMakesNoStackCalls(args, env, ChooseKeypairName(args, now), keyReply);
  }

  /** main never raises "Key pair creation failed.": it raises only the credentials ValueError,
      the unpacking TypeError, or what deploy_stack lets escape (a ClientError of the probe, or
      the IndexError and KeyError of its outputs lookup). */
  lemma NeverRuntimeError(args: Args, env: Env, keyReply: Reply<string>, cfn: CloudFormation)
    ensures var r := RunResult(args, env, keyReply, cfn);
      r.Raised? ==>
        !r.exc.RuntimeError? &&
        (r.exc == ValueError(CREDENTIALS_MESSAGE) || r.exc == TypeError(UNPACK_MESSAGE) ||
         (cfn.existsReply.Err? && r.exc == ClientErr(cfn.existsReply.error)) ||
         r.exc == IndexError(INDEX_MESSAGE) || r.exc == KeyError("Outputs"))
  {
  }

  /** A stack whose terminal status is a failure still has its outputs fetched, and main still
      prints the SSH command and web address when they hold a PublicIP. */
  lemma FailedStackStillReported(args: Args, env: Env, now: HourStamp.DateHour, keyReply: Reply<string>, template: string, cfn: CloudFormation, outs: seq<Output>)
    requires now.Valid()
    requires CredentialsPresent(args, env) && keyReply.Ok? && WillPoll(cfn)
    requires FirstTerminal(cfn.statuses).Some? && Classify(cfn.statuses[FirstTerminal(cfn.statuses).value]) == Failed
    requires cfn.outputsReply.Ok? && cfn.outputsReply.value != [] && cfn.outputsReply.value[0].outputs == Some(outs)
    requires PUBLIC_IP_KEY in ToDict(outs) && ToDict(outs)[PUBLIC_IP_KEY] != ""
    ensures RunResult(args, env, keyReply, cfn) == Returned(())
    ensures var keyPath := KeyFilePath(args.keypairSavePath, ChooseKeypairName(args, now));
      Print(SshCommandLine(SshCommand(keyPath, ToDict(outs)[PUBLIC_IP_KEY]))) in RunTrace(args, env, now, keyReply, template, cfn)
    ensures Print(WebAddressLine(WebAddress(args.stackName, args.hostedZoneName))) in RunTrace(args, env, now, keyReply, template, cfn)
  {
    var keyName := ChooseKeypairName(args, now);
    var keyPath := KeyFilePath(args.keypairSavePath, keyName);
    var outputs := Some(ToDict(outs));
    var report := Printed(ReportMessages(outputs, keyPath, args));
    assert DeployedOutputs(cfn) == Returned(outputs);
    assert RunReport(args, keyName, cfn) == report;
    var t := RunTrace(args, env, now, keyReply, template, cfn);
    var before := RunStart(args, env, keyName, keyReply) +
      DeployTrace(args.stackName, STACK_TEMPLATE_FILE, template, TemplateParameters(args, keyName), cfn);
    assert t == before + report;
    assert report[0] in t;
    assert report[1] in t;
  }

  /** main submits the stack at most once. */
  lemma RunSubmitsAtMostOnce(args: Args, env: Env, now: HourStamp.DateHour, keyReply: Reply<string>, template: string, cfn: CloudFormation)
    requires now.Valid()
    ensures Count(RunTrace(args, env, now, keyReply, template, cfn), SubmitKind) <= 1
  {
    if CredentialsPresent(args, env) {
      var keyName := ChooseKeypairName(args, now);
      var start := RunStart(args, env, keyName, keyReply);
      StartMakesNoStackCalls(args, env, keyName, keyReply);
      if keyReply.Ok? {
        var params := TemplateParameters(args, keyName);
        var deployed := DeployTrace(args.stackName, STACK_TEMPLATE_FILE, template, params, cfn);
        var report := RunReport(args, keyName, cfn);
        DeployTraceSubmission(args.stackName, STACK_TEMPLATE_FILE, template, params, cfn);
        ReportMakesNoStackCalls(args, keyName, cfn);
        CountAppend(start, deployed);
        CountAppend(start + deployed, report);
      }
    }
  }

  /** The closing lines are only printed. */
  lemma ReportMakesNoStackCalls(args: Args, keyName: string, cfn: CloudFormation)
    ensures Count(RunReport(args, keyName, cfn), SubmitKind) == 0
    ensures Count(RunReport(args, keyName, cfn), KeyPairKind) == 0
  {
    if DeployedOutputs(cfn).Returned? {
      var ms := ReportMessages(DeployedOutputs(cfn).value, KeyFilePath(args.keypairSavePath, keyName), args);
      PrintedCount(ms, SubmitKind);
      PrintedCount(ms, KeyPairKind);
    }
  }

  /** The effects deploy_stack can have: printing, sleeping, reading the template, and
      describing or submitting the stack. */
  predicate StackEffect(e: Event)
  {
    e.Print? || e.Sleep? || e.ReadFile? || e.DescribeStacks? || IsSubmission(e)
  }

  /** The waiting rounds only describe, print and sleep. */
  lemma {:induction false} WaitingTraceEffects(stackId: string, waited: seq<string>)
    ensures forall e | e in WaitingTrace(stackId, waited) :: StackEffect(e)
  {
    if waited != [] {
      WaitingTraceEffects(stackId, waited[..|waited| - 1]);
    }
  }

  /** A trace of deploy_stack's kinds of effect opens no session and creates no key pair. */
  lemma StackEffectsOnly(t: seq<Event>)
    requires forall e | e in t :: StackEffect(e)
    ensures Count(t, KeyPairKind) == 0 && Count(t, SessionKind) == 0
  {
    assert forall i :: 0 <= i < |t| ==> StackEffect(t[i]);
    CountAbsent(t, KeyPairKind);
    CountAbsent(t, SessionKind);
  }

  /** What follows the submission only polls, prints and reads the outputs. */
  lemma AfterSubmitEffects(stackName: string, cfn: CloudFormation)
    ensures forall e | e in AfterSubmit(stackName, cfn) :: StackEffect(e)
  {
    if WillPoll(cfn) {
      var id := cfn.submitReply.value;
      match FirstTerminal(cfn.statuses)
      case Some(k) =>
        WaitingTraceEffects(id, cfn.statuses[..k]);
        OutputsTraceCounts(stackName, cfn.outputsReply);
        var outs := OutputsTrace(stackName, cfn.outputsReply);
        assert forall e | e in outs :: StackEffect(e) by {
          assert forall i :: 0 <= i < |outs| ==> StackEffect(outs[i]);
        }
      case None =>
        WaitingTraceEffects(id, cfn.statuses);
    }
  }

  /** deploy_stack neither opens a session nor creates a key pair. */
  lemma DeployMakesNoKeyPair(stackName: string, templateFile: string, template: string, parameters: seq<Parameter>, cfn: CloudFormation)
    ensures Count(DeployTrace(stackName, templateFile, template, parameters, cfn), KeyPairKind) == 0
    ensures Count(DeployTrace(stackName, templateFile, template, parameters, cfn), SessionKind) == 0
  {
    var submit := SubmitTrace(stackName, template, parameters, cfn);
    assert forall e | e in submit :: StackEffect(e);
    StackEffectsOnly(submit);
    AfterSubmitEffects(stackName, cfn);
    StackEffectsOnly(AfterSubmit(stackName, cfn));
    DeployTraceCount(stackName, templateFile, template, parameters, cfn, KeyPairKind);
    DeployTraceCount(stackName, templateFile, template, parameters, cfn, SessionKind);
  }

  /** Opening the session and create_keypair call create_key_pair once. */
  lemma StartCreatesOneKeyPair(args: Args, env: Env, keyName: string, keyReply: Reply<string>)
    ensures Count(RunStart(args, env, keyName, keyReply), KeyPairKind) == 1
  {
    var start := RunStart(args, env, keyName, keyReply);
    var rest := start[2..];
    assert start == [start[0]] + ([start[1]] + rest);
    CountAbsent(rest, KeyPairKind);
    CountCons(start[1], rest);
    CountCons(start[0], [start[1]] + rest);
  }

  /** main creates exactly one key pair when the credentials are present, and none otherwise. */
  lemma RunCreatesOneKeyPair(args: Args, env: Env, now: HourStamp.DateHour, keyReply: Reply<string>, template: string, cfn: CloudFormation)
    requires now.Valid()
    ensures Count(RunTrace(args, env, now, keyReply, template, cfn), KeyPairKind) ==
      if CredentialsPresent(args, env) then 1 else 0
  {
    if CredentialsPresent(args, env) {
      var keyName := ChooseKeypairName(args, now);
      var start := RunStart(args, env, keyName, keyReply);
      StartCreatesOneKeyPair(args, env, keyName, keyReply);
      if keyReply.Ok? {
        var params := TemplateParameters(args, keyName);
        var deployed := DeployTrace(args.stackName, STACK_TEMPLATE_FILE, template, params, cfn);
        var report := RunReport(args, keyName, cfn);
        DeployMakesNoKeyPair(args.stackName, STACK_TEMPLATE_FILE, template, params, cfn);
        ReportMakesNoStackCalls(args, keyName, cfn);
        CountAppend(start, deployed);
        CountAppend(start + deployed, report);
      }
    }
  }

  /** Submissions surrounded by effects that submit nothing are the only ones. */
  lemma SubmissionsBetween(before: seq<Event>, middle: seq<Event>, after: seq<Event>, parameters: seq<Parameter>, template: string)
    requires Count(before, SubmitKind) == 0 && Count(after, SubmitKind) == 0
    requires forall e | e in middle && IsSubmission(e) :: e.parameters == parameters && e.templateBody == template
    ensures forall e | e in before + middle + after && IsSubmission(e) :: e.parameters == parameters && e.templateBody == template
  {
    CountZero(before, SubmitKind);
    CountZero(after, SubmitKind);
  }

  /** The stack submission main makes carries the template read from STACK_TEMPLATE_FILE and
      the eight parameters naming the key pair it created. */
  lemma RunSubmission(args: Args, env: Env, now: HourStamp.DateHour, keyReply: Reply<string>, template: string, cfn: CloudFormation)
    requires now.Valid()
    ensures forall e | e in RunTrace(args, env, now, keyReply, template, cfn) && IsSubmission(e) ::
      e.parameters == TemplateParameters(args, ChooseKeypairName(args, now)) && e.templateBody == template
  {
    if CredentialsPresent(args, env) {
      var keyName := ChooseKeypairName(args, now);
      var start := RunStart(args, env, keyName, keyReply);
      StartMakesNoStackCalls(args, env, keyName, keyReply);
      CountZero(start, SubmitKind);
      if keyReply.Ok? {
        var params := TemplateParameters(args, keyName);
        var deployed := DeployTrace(args.stackName, STACK_TEMPLATE_FILE, template, params, cfn);
        var report := RunReport(args, keyName, cfn);
        DeployTraceSubmission(args.stackName, STACK_TEMPLATE_FILE, template, params, cfn);
        ReportMakesNoStackCalls(args, keyName, cfn);
        SubmissionsBetween(start, deployed, report, params, template);
      }
    }
  }

  /** main: check the credentials, open the session, create the key pair, deploy the stack
      and print the SSH command and web address when the outputs have a PublicIP. */
  method Run(args: Args, env: Env, now: HourStamp.DateHour, keyReply: Reply<string>, template: string, cfn: CloudFormation)
    returns (r: Outcome<()>, events: seq<Event>)
    requires now.Valid()
    ensures r == RunResult(args, env, keyReply, cfn)
    ensures events == RunTrace(args, env, now, keyReply, template, cfn)
  {
    var accessKeyId := Or(args.accessKey, env.accessKeyId);
    var secretAccessKey := Or(args.secretKey, env.secretAccessKey);
    var region := Or(Some(args.region), env.region);
    if !(Truthy(accessKeyId) && Truthy(secretAccessKey)) {
      r := Raised(ValueError(CREDENTIALS_MESSAGE));
      events := [];
      return;
    }
    events := [InitSession(region)];
    var keyName := ChooseKeypairName(args, now);
    var created, keyEvents := CreateKeypair(keyName, args.keypairSavePath, keyReply);
    events := events + keyEvents;
    if created.None? {
      r := Raised(TypeError(UNPACK_MESSAGE));
      return;
    }
    var (createdName, createdPath) := created.value;
    if createdName == "" {
      // `if not created_keypair_name: raise RuntimeError(...)` cannot fire: the name is never empty.
      assert false;
    }
    var parameters := TemplateParameters(args, createdName);
    var outputs, deployEvents := DeployStack(args.stackName, STACK_TEMPLATE_FILE, template, parameters, cfn);
    events := events + deployEvents;
    match outputs
    case Raised(e) =>
      r := Raised(e);
    case StillPolling =>
      r := StillPolling;
    case Returned(stackOutputs) =>
      events := events + Printed(ReportMessages(stackOutputs, createdPath, args));
      r := Returned(());
  }
}
