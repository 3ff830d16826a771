# aws_ollama stack deployment, modelled in Dafny

This project models the command-line tool of aws_ollama that deploys an Ollama
server on AWS: `cli/build_stack.py` (the `main` entry point, key-pair creation,
key-pair naming and its own `get_stack_outputs`) and `cli/utils/stack.py`
(create-or-update of the CloudFormation stack, the status polling loop, the
existence probe and the outputs lookup).

How the model is built:

- **Effects are a log.** Each operation returns, besides its Python result, the
  sequence of effects it performs, in order (`Cloud.Event`). The events are
  AWS calls, printed lines, sleeps, and file reads, writes and chmods. Every
  printed line is a `Cloud.Message`; `Cloud.Text` gives its exact f-string text.
- **AWS is a script of replies.** EC2's `create_key_pair` is a
  `Reply<string>` (the key material or a `ClientError`). CloudFormation is a
  `StackUtils.CloudFormation` record. It holds the reply of the existence
  probe, the reply of `create_stack`/`update_stack`, the `StackStatus` read by
  each poll, and the reply of the outputs lookup.
- **Ending.** `Outcome` records how a call ends: it returns, raises a Python
  exception, or is still polling when the scripted statuses run out. Python
  would then keep polling.
- **Each method has a specification function.** Each method (`DeployStack`,
  `WaitForStackCompletion`, `Run`, ...) is proved to return the result and the
  effect log of a function of its inputs (`DeployedOutputs`/`DeployTrace`,
  `FirstTerminal`/`PollTrace`, `RunResult`/`RunTrace`, ...). The lemmas state
  the script's promises about those functions.

Behaviour of the code that the model keeps as written:

- An existing stack is updated (`update_stack`), not refused. "No updates are
  to be performed" is printed as "No updates to perform." and yields `None`.
- `create_keypair` is always called, also when `--keypair_name` is given. The
  name given is used verbatim.
- The private key goes to `<save_path>/<name>.pem`, and that file is then
  chmod 0o400. With the default save path `.`, key pair `k` goes to `./k.pem`.
- When `create_keypair` fails it returns `None`. Unpacking that `None` raises
  `TypeError`, so the `RuntimeError("Key pair creation failed.")` branch can
  never run: the name is never empty. `Run` carries `assert false` in that
  branch, and `BuildStack.NeverRuntimeError` states the consequence.
- A stack whose terminal status is a failure still has its outputs fetched and
  returned. `main` still prints the SSH command and web address for it.
- The polling loop has no timeout and no retry. `DELETE_COMPLETE` and the
  `*_IN_PROGRESS` statuses are waited on.
- The two `get_stack_outputs` differ:
  - `cli/utils/stack.py` prints every output and raises `IndexError` on an
    empty stack list;
  - `cli/build_stack.py` prints nothing per output and returns `None` on an
    empty stack list.
- The `Region` template parameter is the `--region` option as given, not the
  `AWS_REGION` fallback used for the session.

## Model

| member | source | states |
|---|---|---|
| `Python.Or` | cli/build_stack.py:128-130 | `x or y` is truthy iff either operand is; it is `x` when `x` is truthy and `y` otherwise |
| `Python.Contains` | cli/utils/stack.py:94 | the substring test is true iff the pattern occurs at some index of the status |
| `Python.Lower` | cli/utils/stack.py:92 | `lower()` keeps the length, leaves no capital letter, turns each capital into the small letter at the same place in the alphabet and keeps every other character |
| `Python.LowerIdempotent` | cli/utils/stack.py:92 | lowering twice gives what lowering once gives |
| `HourStamp.Decimal` | cli/build_stack.py:98 | a strftime field is exactly `width` decimal digits |
| `HourStamp.ValueOfDecimal` | cli/build_stack.py:98 | reading a zero-padded field back gives the number whenever it fits the width |
| `HourStamp.Stamp` | cli/build_stack.py:98 | `%Y%m%d%H` is ten digits |
| `HourStamp.StampRoundTrip` | cli/build_stack.py:98 | parsing the stamp gives back the year, month, day and hour |
| `HourStamp.StampInjective` | cli/build_stack.py:98 | different hours give different stamps |
| `Cloud.Text` | cli/utils/stack.py:92-132 | an output line is the key, ": " and the value; the complete and failed lines carry the lowered status and the waiting line the status itself (the lines of cli/build_stack.py:56, 83, 86 and 172-173 are stated by `ErrorTextLast`, `KeyPairTextLast`, `SshLineText` and `WebLineText`) |
| `Cloud.ErrorTextLast` | cli/utils/stack.py:64-137 | every line reporting a caught ClientError ends with the error's text |
| `Cloud.KeyPairTextLast` | cli/build_stack.py:83 | the key-pair line ends with the path of the saved key file |
| `Cloud.ToDictKeys` | cli/utils/stack.py:130-133 | the outputs dict has exactly the OutputKeys as keys |
| `Cloud.ToDictLastWins` | cli/utils/stack.py:130-133 | a key maps to the OutputValue of its last occurrence |
| `StackUtils.Classify` | cli/utils/stack.py:91-96 | complete iff CREATE_COMPLETE or UPDATE_COMPLETE; failed iff not complete and the status contains FAILED or is ROLLBACK_COMPLETE or UPDATE_ROLLBACK_COMPLETE |
| `StackUtils.ClassifySucceeded` | cli/utils/stack.py:91 | both COMPLETE statuses of create and update end the loop as complete |
| `StackUtils.ClassifyFailed` | cli/utils/stack.py:94 | CREATE_FAILED, ROLLBACK_FAILED, UPDATE_ROLLBACK_FAILED and the two rolled-back statuses end the loop as failed |
| `StackUtils.ClassifyWithoutF` | cli/utils/stack.py:91-94 | a status without the letter F that is not one of the four named ones keeps the loop waiting |
| `StackUtils.ClassifyWaitedOn` | cli/utils/stack.py:98-99 | CREATE_IN_PROGRESS and ROLLBACK_IN_PROGRESS are waited on, and so is DELETE_COMPLETE: none of them ends the loop |
| `StackUtils.FirstTerminal` | cli/utils/stack.py:87-96 | the index found is terminal and every earlier status is not; with no index, no status is terminal |
| `StackUtils.WaitingTraceAt` | cli/utils/stack.py:87-99 | waiting round j is one describe call, the waiting line for status j, and a 10-second sleep |
| `StackUtils.WaitingTraceLength` | cli/utils/stack.py:87-99 | each waiting round is three effects |
| `StackUtils.WaitingTraceCounts` | cli/utils/stack.py:87-99 | each waiting round sleeps once and describes once, and nothing is submitted |
| `StackUtils.PollTraceStops` | cli/utils/stack.py:87-99 | the loop stops at the first terminal status k: 3k+2 effects, k sleeps, k+1 describe calls, ending with the describe call and the complete or failed line |
| `StackUtils.PollTraceNeverStops` | cli/utils/stack.py:87-99 | with no terminal status every observed status costs a describe call and a sleep |
| `StackUtils.PollTraceIgnoresLaterStatuses` | cli/utils/stack.py:93-96 | statuses after the first terminal one are never read |
| `StackUtils.WaitForStackCompletion` | cli/utils/stack.py:80-99 | the loop stops at the first terminal status and performs exactly the poll trace |
| `StackUtils.DoesStackExist` | cli/utils/stack.py:102-116 | true iff describe succeeds; false iff a ValidationError; any other ClientError is re-raised |
| `StackUtils.SubmitErrorMessage` | cli/utils/stack.py:60-65 | a refused update prints "No updates to perform." iff it is a ValidationError whose text contains "No updates are to be performed"; every other refusal prints the update or create error |
| `StackUtils.SubmitResultCases` | cli/utils/stack.py:50-78 | the submission raises iff the probe re-raises; it returns None iff the submission's ClientError was caught |
| `StackUtils.SubmitTraceShape` | cli/utils/stack.py:50-78 | one describe call and one submission: update_stack when the stack exists, create_stack otherwise, with the given template, parameters and both IAM capabilities |
| `StackUtils.DeployCloudFormationStack` | cli/utils/stack.py:40-78 | returns the StackId, None on a caught ClientError, or the probe's exception, and performs the submission trace |
| `StackUtils.OutputsResultDict` | cli/utils/stack.py:127-135 | a returned dict has exactly the OutputKeys, each with the value of its last occurrence |
| `StackUtils.OutputsTraceCounts` | cli/utils/stack.py:127-138 | the outputs lookup is one describe call, then only printing |
| `StackUtils.GetStackOutputs` | cli/utils/stack.py:119-138 | builds the dict output by output while printing each line; a ClientError prints the error and yields None |
| `StackUtils.AfterSubmitCounts` | cli/utils/stack.py:168-170 | after the submission nothing is submitted; polling sleeps once per waited status and describes once more for the outputs |
| `StackUtils.VerdictDoesNotChangeResult` | cli/utils/stack.py:168-170 | a failed stack's outputs are returned just as a completed one's |
| `StackUtils.NoStackIdNoPolling` | cli/utils/stack.py:168-171 | without a truthy StackId, None is returned with no poll and no sleep |
| `StackUtils.PolledToTerminal` | cli/utils/stack.py:168-170 | stopping at status k means k sleeps, k+3 describe calls and one submission, and the result is the outputs lookup's |
| `StackUtils.PolledForever` | cli/utils/stack.py:87-99 | when no terminal status is ever read, every status costs one sleep and one describe call |
| `BuildStack.DeployMakesNoKeyPair` | cli/utils/stack.py:156-171 | deploy_stack opens no session and creates no key pair |
| `StackUtils.DeployTraceSubmission` | cli/utils/stack.py:165-167 | deploy_stack reads the template, probes, submits at most once, and the submission carries that template and the parameters |
| `StackUtils.DeployStack` | cli/utils/stack.py:156-171 | returns what `DeployedOutputs` gives and performs the deploy trace |
| `BuildStack.GetStackOutputs` | cli/build_stack.py:47-57 | one describe call; None on a ClientError (printed) or on an empty stack list, KeyError without Outputs, otherwise the dict, with nothing printed per output |
| `BuildStack.OutputReadersDiffer` | cli/build_stack.py:51-54 | the two get_stack_outputs agree except on an empty stack list, where one returns None and the other raises IndexError |
| `BuildStack.GenerateKeypairName` | cli/build_stack.py:97-99 | a generated name is the stack name, a dash, ten digits that parse back to the hour read from the clock, and "-keypair" |
| `BuildStack.GeneratedNameInjective` | cli/build_stack.py:97-99 | different stacks or different hours give different generated names |
| `BuildStack.ChooseKeypairName` | cli/build_stack.py:140 | the chosen name is never empty; it is the given name when that is non-empty, else the generated one |
| `BuildStack.KeyFilePath` | cli/build_stack.py:76 | the key file path splits into the save path, a slash, the key-pair name and ".pem" |
| `BuildStack.KeyFilePathInjective` | cli/build_stack.py:76 | in one directory different key pairs go to different files |
| `BuildStack.DefaultKeyFilePath` | cli/build_stack.py:123 | with the default save path, every key pair k is saved to ./k.pem |
| `BuildStack.KeypairTraceWrites` | cli/build_stack.py:72-83 | the key material is written exactly when the key pair was created, to the returned path, and the next step chmods that file to 0o400; a failed creation writes and chmods nothing |
| `BuildStack.CreateKeypair` | cli/build_stack.py:69-87 | returns the name and key path iff the key pair was created, None on a ClientError, with the key-pair trace |
| `BuildStack.CredentialsPresentIff` | cli/build_stack.py:128-133 | credentials pass iff each of the key id and secret is non-empty on the command line or in the environment |
| `BuildStack.SessionRegion` | cli/build_stack.py:130 | the session region is --region, or AWS_REGION when --region is empty |
| `BuildStack.TemplateParameters` | cli/build_stack.py:148-157 | eight parameters whose keys follow the fixed order |
| `BuildStack.ParameterKeysDistinct` | cli/build_stack.py:148-157 | no two parameters share a key |
| `BuildStack.TemplateParameterValues` | cli/build_stack.py:148-157 | each of the eight keys carries its option: Region is --region, KeyPairName the key pair created, SubdomainName the stack name, and HostedZoneId, HostedZoneName, InstanceType, BasicAuthUser and BasicAuthPassword their options |
| `BuildStack.SshCommand` | cli/build_stack.py:171 | the SSH command is "ssh -i ", the key file path, " ubuntu@" and the instance address |
| `BuildStack.WebAddress` | cli/build_stack.py:173 | the web address is "https://", the stack name, a dot and the hosted zone name |
| `BuildStack.ReportMessages` | cli/build_stack.py:168-173 | the report is printed iff the outputs hold a non-empty PublicIP, and is then exactly the SSH command for that address followed by the web address |
| `BuildStack.SshLineText` | cli/build_stack.py:171-172 | the SSH line reads "SSH command: ssh -i <key file> ubuntu@<address>" |
| `BuildStack.WebLineText` | cli/build_stack.py:173 | the web line reads "Web address: https://<stack>.<zone>" |
| `BuildStack.StartMakesNoStackCalls` | cli/build_stack.py:137-143 | the session and the key pair make no CloudFormation call |
| `BuildStack.NoCredentialsNoCalls` | cli/build_stack.py:133-134 | missing credentials raise ValueError before any session, key-pair or stack call |
| `BuildStack.KeypairAlwaysCreated` | cli/build_stack.py:137-143 | with credentials, main opens the session and then always calls create_key_pair, with the given or generated name |
| `BuildStack.KeypairFailureStops` | cli/build_stack.py:143 | a failed key pair ends main with a TypeError before any CloudFormation call |
| `BuildStack.NeverRuntimeError` | cli/build_stack.py:143-145 | main never raises the key-pair RuntimeError; it raises only the credentials, unpacking, probe or outputs exceptions |
| `BuildStack.FailedStackStillReported` | cli/build_stack.py:160-173 | a stack that ended in failure but has a PublicIP output still gets the SSH command and the web address printed |
| `BuildStack.StartCreatesOneKeyPair` | cli/build_stack.py:137-143 | opening the session and create_keypair call create_key_pair exactly once |
| `BuildStack.RunCreatesOneKeyPair` | cli/build_stack.py:110-173 | main calls create_key_pair exactly once when the credentials are present, and never otherwise |
| `BuildStack.RunSubmitsAtMostOnce` | cli/build_stack.py:160-165 | main submits the stack at most once |
| `BuildStack.RunSubmission` | cli/build_stack.py:148-165 | the submission carries the template read and the eight parameters naming the key pair created |
| `BuildStack.Run` | cli/build_stack.py:110-173 | main ends as `RunResult` says and performs exactly `RunTrace` |

## Left out

- The boto3 session and clients (`init_session`, `session.client`). The
  session is one `InitSession` event with its region; the clients are the
  scripted replies.
- `argparse`, `load_dotenv` and `os.getenv`. Their results are the `Args` and
  `Env` records. argparse's own errors for a missing required option are not
  modelled.
- The clock. `datetime.now()` is a `DateHour` parameter. Years before 1000
  are excluded because `%Y` would no longer be four digits.
- `time.sleep` is a `Sleep` event only; no time passes.
- File system failures, such as an `OSError` from reading the template or
  writing or chmodding the key file. File contents are values: the template
  text is a parameter and the key material is what EC2 returns.
- Exceptions raised by a `describe_stacks` call inside the polling loop, and
  missing `Stacks` or `StackStatus` keys there. Each poll yields one status.
- A `ClientError` carries only its code and message text. Its full
  `str(e)` formatting is not modelled.
- `Python.Lower` lowers ASCII letters only. CloudFormation statuses are ASCII
  upper case, so nothing else reaches it.
- The polling loop is unbounded in Python. The model observes a finite list of
  statuses and reports `StillPolling` when it ends without a terminal one.
- The CloudFormation template, the remote server script and any signal or
  timeout handling are outside these two files.
