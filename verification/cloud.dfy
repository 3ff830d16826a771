/** What the deployment scripts exchange with the outside world: the errors
    boto3 raises, the replies of the AWS calls they make, and the log of the
    effects they perform (calls, printed lines, sleeps, file writes). */
module Cloud {
  import opened Python

  /** A botocore ClientError: `e.response['Error']['Code']` and `str(e)`. */
  datatype ClientError = ClientError(code: string, text: string)

  /** The exceptions that can escape the scripts' functions. */
  datatype Exception =
    | ClientErr(error: ClientError)
    | ValueError(message: string)
    | TypeError(message: string)
    | RuntimeError(message: string)
    | IndexError(message: string)
    | KeyError(key: string)

  /** How a call ends: it returns a value, raises, or is still inside the status
      polling loop when the observed statuses run out (the script would go on polling). */
  datatype Outcome<+T> = Returned(value: T) | Raised(exc: Exception) | StillPolling

  /** The reply of one AWS API call: the part of the response the scripts read, or a ClientError. */
  datatype Reply<+T> = Ok(value: T) | Err(error: ClientError)

  /** One entry of a stack's `Outputs` list. */
  datatype Output = Output(key: string, value: string)

  /** One entry of the `Stacks` list that describe_stacks returns; `outputs` is None when
      the entry has no `Outputs` key. */
  datatype StackDescription = StackDescription(status: string, outputs: Option<seq<Output>>)

  /** One `{'ParameterKey': ..., 'ParameterValue': ...}` entry of a template parameter list. */
  datatype Parameter = Parameter(key: string, value: string)

  /** A Python dict from strings to strings. */
  type Dict = map<string, string>

  /** A line the scripts print, with the values it mentions. */
  datatype Message =
    | KeyPairCreated(keyName: string, path: string)
    | KeyPairError(error: ClientError)
    | QueryError(error: ClientError)
    | SshCommandLine(command: string)
    | WebAddressLine(url: string)
    | Updating(stackName: string)
    | NoUpdates
    | UpdateError(error: ClientError)
    | Creating(stackName: string)
    | CreateError(error: ClientError)
    | StackComplete(status: string)
    | StackFailed(status: string)
    | StackWaiting(status: string)
    | OutputLine(key: string, value: string)
    | OutputsError(error: ClientError)

  /** The messages that report a caught ClientError. */
  predicate IsErrorReport(m: Message)
  {
    m.KeyPairError? || m.QueryError? || m.UpdateError? || m.CreateError? || m.OutputsError?
  }

  /** The exact text of each printed line (f-strings of the two scripts; `{e}` is `str(e)`).
      An output line is the key, then the value; the terminal status lines show the status
      lowered and the waiting line shows it as read. */
  function Text(m: Message): (t: string)
    ensures m.OutputLine? ==>
      |t| == |m.key| + 2 + |m.value| && t[..|m.key|] == m.key && t[|m.key|..|m.key| + 2] == ": " &&
      t[|m.key| + 2..] == m.value
    ensures m.StackComplete? || m.StackFailed? ==>
      |t| > 6 + |m.status| && t[6..6 + |m.status|] == Lower(m.status)
    ensures m.StackWaiting? ==> |t| > 14 + |m.status| && t[14..14 + |m.status|] == m.status
  {
    match m
    case KeyPairCreated(name, path) => "Key pair " + name + " created and private key saved to " + path
    case KeyPairError(e) => "Error creating keypair: " + e.text
    case QueryError(e) => "Error querying stack: " + e.text
    case SshCommandLine(command) => "SSH command: " + command
    case WebAddressLine(url) => "Web address: " + url
    case Updating(name) => "Updating stack '" + name + "'..."
    case NoUpdates => "No updates to perform."
    case UpdateError(e) => "Error updating stack: " + e.text
    case Creating(name) => "Creating stack '" + name + "'..."
    case CreateError(e) => "Error creating stack: " + e.text
    case StackComplete(status) => "Stack " + Lower(status) + "."
    case StackFailed(status) => "Stack " + Lower(status) + ": operation failed."
    case StackWaiting(status) => "Stack status: " + status + "... waiting"
    case OutputLine(key, value) => key + ": " + value
    case OutputsError(e) => "Error retrieving stack outputs: " + e.text
  }

  /** Every error line ends with the text of the error it reports. */
  lemma ErrorTextLast(m: Message)
    requires IsErrorReport(m)
    ensures |Text(m)| > |m.error.text| && Text(m)[|Text(m)| - |m.error.text|..] == m.error.text
  {
  }

  /** The key-pair line ends with the path of the saved key file. */
  lemma KeyPairTextLast(m: Message)
    requires m.KeyPairCreated?
    ensures |Text(m)| > |m.path| && Text(m)[|Text(m)| - |m.path|..] == m.path
  {
  }

  /** One observable effect, in the order the scripts perform them. */
  datatype Event =
    | Print(message: Message)
    | Sleep(seconds: nat)
    | InitSession(region: Option<string>)
    | CreateKeyPair(keyName: string)
    | WriteFile(path: string, contents: string)
    | Chmod(path: string, mode: nat)
    | ReadFile(path: string)
    | DescribeStacks(stackName: string)
    | CreateStack(stackName: string, templateBody: string, parameters: seq<Parameter>, capabilities: seq<string>)
    | UpdateStack(stackName: string, templateBody: string, parameters: seq<Parameter>, capabilities: seq<string>)

  datatype Kind = PrintKind | SleepKind | SessionKind | KeyPairKind | FileKind | DescribeKind | SubmitKind

  function KindOf(e: Event): Kind
  {
    match e
    case Print(_) => PrintKind
    case Sleep(_) => SleepKind
    case InitSession(_) => SessionKind
    case CreateKeyPair(_) => KeyPairKind
    case WriteFile(_, _) => FileKind
    case Chmod(_, _) => FileKind
    case ReadFile(_) => FileKind
    case DescribeStacks(_) => DescribeKind
    case CreateStack(_, _, _, _) => SubmitKind
    case UpdateStack(_, _, _, _) => SubmitKind
  }

  /** A stack submission: a create_stack or update_stack call. */
  predicate IsSubmission(e: Event)
  {
    e.CreateStack? || e.UpdateStack?
  }

  /** The number of events of kind `k` in `es`. */
  function Count(es: seq<Event>, k: Kind): nat
  {
    if es == [] then 0 else (if KindOf(es[0]) == k then 1 else 0) + Count(es[1..], k)
  }

  lemma {:induction false} CountAppend(a: seq<Event>, b: seq<Event>)
    ensures forall k :: Count(a + b, k) == Count(a, k) + Count(b, k)
  {
    if a == [] {
      assert a + b == b;
    } else {
      assert (a + b)[1..] == a[1..] + b;
      CountAppend(a[1..], b);
    }
  }

  lemma CountCons(e: Event, es: seq<Event>)
    ensures forall k :: Count([e] + es, k) == (if KindOf(e) == k then 1 else 0) + Count(es, k)
  {
    assert ([e] + es)[1..] == es;
  }

  lemma CountOne(e: Event)
    ensures forall k :: Count([e], k) == if KindOf(e) == k then 1 else 0
  {
    assert [e] == [e] + [];
    CountCons(e, []);
  }

  lemma CountTwo(e1: Event, e2: Event)
    ensures forall k :: Count([e1, e2], k) == (if KindOf(e1) == k then 1 else 0) + (if KindOf(e2) == k then 1 else 0)
  {
    assert [e1, e2] == [e1] + [e2];
    CountCons(e1, [e2]);
    CountOne(e2);
  }

  lemma {:induction false} CountAbsent(es: seq<Event>, k: Kind)
    requires forall i :: 0 <= i < |es| ==> KindOf(es[i]) != k
    ensures Count(es, k) == 0
  {
    if es != [] {
      CountAbsent(es[1..], k);
    }
  }

  lemma {:induction false} CountZero(es: seq<Event>, k: Kind)
    requires Count(es, k) == 0
    ensures forall e | e in es :: KindOf(e) != k
  {
    if es != [] {
      CountZero(es[1..], k);
      assert es == [es[0]] + es[1..];
    }
  }

  /** The messages of `ms`, each printed. */
  function Printed(ms: seq<Message>): (es: seq<Event>)
    ensures |es| == |ms|
    ensures forall i :: 0 <= i < |es| ==> es[i] == Print(ms[i])
  {
    seq(|ms|, i requires 0 <= i < |ms| => Print(ms[i]))
  }

  /** Printing only prints: no call, sleep or file access. */
  lemma PrintedCount(ms: seq<Message>, k: Kind)
    requires k != PrintKind
    ensures Count(Printed(ms), k) == 0
  {
    CountAbsent(Printed(ms), k);
  }

  /** The OutputKeys of a list of outputs. */
  function KeysOf(outs: seq<Output>): set<string>
  {
    set i | 0 <= i < |outs| :: outs[i].key
  }

  /** The dict a Python loop or comprehension builds from `outs`, assigning
      `d[o.key] = o.value` for each output in order; a later entry overwrites an earlier one. */
  function ToDict(outs: seq<Output>): Dict
  {
    if outs == [] then map[] else ToDict(outs[..|outs| - 1])[outs[|outs| - 1].key := outs[|outs| - 1].value]
  }

  /** The dict's keys are exactly the OutputKeys. */
  lemma {:induction false} ToDictKeys(outs: seq<Output>)
    ensures ToDict(outs).Keys == KeysOf(outs)
  {
    if outs != [] {
      var init := outs[..|outs| - 1];
      ToDictKeys(init);
      assert KeysOf(outs) == KeysOf(init) + {outs[|outs| - 1].key} by {
        forall k | k in KeysOf(outs) ensures k in KeysOf(init) + {outs[|outs| - 1].key} {
          var i :| 0 <= i < |outs| && outs[i].key == k;
          if i < |outs| - 1 {
            assert init[i] == outs[i];
          }
        }
        forall k | k in KeysOf(init) ensures k in KeysOf(outs) {
          var i :| 0 <= i < |init| && init[i].key == k;
          assert outs[i] == init[i];
        }
      }
    }
  }

  /** A key maps to the value of its last occurrence: if no later entry repeats the key
      of entry `i`, the dict holds entry `i`'s value. */
  lemma {:induction false} ToDictLastWins(outs: seq<Output>, i: nat)
    requires i < |outs|
    requires forall j :: i < j < |outs| ==> outs[j].key != outs[i].key
    ensures outs[i].key in ToDict(outs) && ToDict(outs)[outs[i].key] == outs[i].value
  {
    if i < |outs| - 1 {
      var init := outs[..|outs| - 1];
      assert init[i] == outs[i];
      forall j | i < j < |init| ensures init[j].key != init[i].key {
        assert init[j] == outs[j];
      }
      ToDictLastWins(init, i);
    }
  }
}
