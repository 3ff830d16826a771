/** cli/utils/stack.py: submitting the CloudFormation template (create or update),
    polling the stack's status until it is terminal, and reading the stack's outputs.
    The CloudFormation service is a script of replies; the boto3 client is left out. */
module StackUtils {
  import opened Python
  import opened Cloud

  const CAPABILITIES: seq<string> := ["CAPABILITY_IAM", "CAPABILITY_NAMED_IAM"]
  const POLL_INTERVAL: nat := 10
  const NO_UPDATES_TEXT := "No updates are to be performed"
  const VALIDATION_ERROR := "ValidationError"
  const INDEX_MESSAGE := "list index out of range"

  /** What CloudFormation answers, call by call, during one deploy_stack. */
  datatype CloudFormation = CloudFormation(
    existsReply: Reply<seq<StackDescription>>,   // describe_stacks issued by does_stack_exist
    submitReply: Reply<string>,                   // create_stack or update_stack: the StackId
    statuses: seq<string>,                        // StackStatus read by each describe_stacks of the wait loop
    outputsReply: Reply<seq<StackDescription>>    // describe_stacks issued by get_stack_outputs
  )

  // ---------------------------------------------------------------------------
  // Status classification and the wait loop

  datatype Verdict = Succeeded | Failed | InProgress

  /** The wait loop's view of a StackStatus. */
  function Classify(status: string): (v: Verdict)
    ensures v == Succeeded <==> status == "CREATE_COMPLETE" || status == "UPDATE_COMPLETE"
    ensures v == Failed <==>
      v != Succeeded &&
      (OccursIn("FAILED", status) || status == "ROLLBACK_COMPLETE" || status == "UPDATE_ROLLBACK_COMPLETE")
  {
    if status in ["CREATE_COMPLETE", "UPDATE_COMPLETE"] then Succeeded
    else if Contains(status, "FAILED") || status in ["ROLLBACK_COMPLETE", "UPDATE_ROLLBACK_COMPLETE"] then Failed
    else InProgress
  }

  predicate IsTerminal(status: string)
  {
    Classify(status) != InProgress
  }

  /** The two statuses the loop reports as complete. */
  lemma ClassifySucceeded()
    ensures Classify("CREATE_COMPLETE") == Succeeded
    ensures Classify("UPDATE_COMPLETE") == Succeeded
  {
  }

  /** Statuses the loop reports as failed, among them three whose names contain "FAILED" and the
      two that end a rollback. */
  lemma ClassifyFailed()
    ensures Classify("CREATE_FAILED") == Failed
    ensures Classify("ROLLBACK_FAILED") == Failed
    ensures Classify("UPDATE_ROLLBACK_FAILED") == Failed
    ensures Classify("ROLLBACK_COMPLETE") == Failed
    ensures Classify("UPDATE_ROLLBACK_COMPLETE") == Failed
  {
    assert MatchesAt("CREATE_FAILED", "FAILED", 7);
    assert MatchesAt("ROLLBACK_FAILED", "FAILED", 9);
    assert MatchesAt("UPDATE_ROLLBACK_FAILED", "FAILED", 16);
  }

  /** A status without the letter F is waited on unless it is one of the four named statuses. */
  lemma ClassifyWithoutF(status: string)
    requires 'F' !in status
    requires status !in ["CREATE_COMPLETE", "UPDATE_COMPLETE", "ROLLBACK_COMPLETE", "UPDATE_ROLLBACK_COMPLETE"]
    ensures Classify(status) == InProgress
  {
    AbsentFirstCharacter(status, "FAILED");
  }

  /** Statuses the loop waits on: a creation or a rollback in progress (the loop does not stop
      until the rollback ends), and also a deleted stack, which is not terminal for the loop. */
  lemma ClassifyWaitedOn(status: string)
    requires status in ["CREATE_IN_PROGRESS", "ROLLBACK_IN_PROGRESS", "DELETE_COMPLETE"]
    ensures Classify(status) == InProgress
  {
    ClassifyWithoutF(status);
  }

  /** The index of the first terminal status, if any. */
  function FirstTerminal(statuses: seq<string>): (r: Option<nat>)
    ensures r.Some? ==>
      r.value < |statuses| && IsTerminal(statuses[r.value]) &&
      forall j :: 0 <= j < r.value ==> !IsTerminal(statuses[j])
    ensures r.None? ==> forall j :: 0 <= j < |statuses| ==> !IsTerminal(statuses[j])
  {
    if statuses == [] then None
    else if IsTerminal(statuses[0]) then Some(0)
    else match FirstTerminal(statuses[1..])
      case None => None
      case Some(k) => Some(k + 1)
  }

  /** The line printed for a terminal status. */
  function FinalMessage(status: string): Message
  {
    if Classify(status) == Succeeded then StackComplete(status) else StackFailed(status)
  }

  /** One round of the loop on a non-terminal status: describe, waiting line, sleep. */
  function WaitRound(stackId: string, status: string): seq<Event>
  {
    [DescribeStacks(stackId), Print(StackWaiting(status)), Sleep(POLL_INTERVAL)]
  }

  /** The rounds of the loop on the statuses `waited`, in order. */
  function WaitingTrace(stackId: string, waited: seq<string>): seq<Event>
  {
    if waited == [] then []
    else WaitingTrace(stackId, waited[..|waited| - 1]) + WaitRound(stackId, waited[|waited| - 1])
  }

  /** The effects of the wait loop when describe_stacks reports `statuses` in turn: a waiting
      round for every status before the first terminal one, then one describe call and the
      final line; with no terminal status, a waiting round for every status. */
  function PollTrace(stackId: string, statuses: seq<string>): seq<Event>
  {
    match FirstTerminal(statuses)
    case Some(k) => WaitingTrace(stackId, statuses[..k]) + [DescribeStacks(stackId), Print(FinalMessage(statuses[k]))]
    case None => WaitingTrace(stackId, statuses)
  }

  /** Round `j` of the waiting trace is the describe call, waiting line and sleep for status `j`. */
  lemma {:induction false} WaitingTraceAt(stackId: string, waited: seq<string>, j: nat)
    requires j < |waited|
    ensures |WaitingTrace(stackId, waited)| == 3 * |waited|
    ensures WaitingTrace(stackId, waited)[3 * j] == DescribeStacks(stackId)
    ensures WaitingTrace(stackId, waited)[3 * j + 1] == Print(StackWaiting(waited[j]))
    ensures WaitingTrace(stackId, waited)[3 * j + 2] == Sleep(POLL_INTERVAL)
  {
    var n := |waited| - 1;
    var init := waited[..n];
    WaitingTraceLength(stackId, init);
    if j < n {
      assert init[j] == waited[j];
      WaitingTraceAt(stackId, init, j);
    }
  }

  lemma {:induction false} WaitingTraceLength(stackId: string, waited: seq<string>)
    ensures |WaitingTrace(stackId, waited)| == 3 * |waited|
  {
    if waited != [] {
      WaitingTraceLength(stackId, waited[..|waited| - 1]);
    }
  }

  /** Each waiting round sleeps once, describes once, and submits nothing. */
  lemma {:induction false} WaitingTraceCounts(stackId: string, waited: seq<string>)
    ensures Count(WaitingTrace(stackId, waited), SleepKind) == |waited|
    ensures Count(WaitingTrace(stackId, waited), DescribeKind) == |waited|
    ensures Count(WaitingTrace(stackId, waited), SubmitKind) == 0
  {
    if waited != [] {
      var init := waited[..|waited| - 1];
      var round := WaitRound(stackId, waited[|waited| - 1]);
      WaitingTraceCounts(stackId, init);
      CountAppend(WaitingTrace(stackId, init), round);
      assert round == [round[0]] + [round[1], round[2]];
      CountCons(round[0], [round[1], round[2]]);
      CountTwo(round[1], round[2]);
    }
  }

  /** The loop stops at the first terminal status: each earlier status cost one describe call,
      one waiting line and one sleep; the terminal status costs one describe call and its
      final line, and nothing follows. */
  lemma PollTraceStops(stackId: string, statuses: seq<string>, k: nat)
    requires FirstTerminal(statuses) == Some(k)
    ensures |PollTrace(stackId, statuses)| == 3 * k + 2
    ensures forall j :: 0 <= j < k ==>
      PollTrace(stackId, statuses)[3 * j] == DescribeStacks(stackId) &&
      PollTrace(stackId, statuses)[3 * j + 1] == Print(StackWaiting(statuses[j])) &&
      PollTrace(stackId, statuses)[3 * j + 2] == Sleep(POLL_INTERVAL)
    ensures PollTrace(stackId, statuses)[3 * k] == DescribeStacks(stackId)
    ensures PollTrace(stackId, statuses)[3 * k + 1] == Print(FinalMessage(statuses[k]))
    ensures Count(PollTrace(stackId, statuses), SleepKind) == k
    ensures Count(PollTrace(stackId, statuses), DescribeKind) == k + 1
    ensures Count(PollTrace(stackId, statuses), SubmitKind) == 0
  {
    var waited := statuses[..k];
    var last := [DescribeStacks(stackId), Print(FinalMessage(statuses[k]))];
    WaitingTraceLength(stackId, waited);
    forall j | 0 <= j < k
      ensures PollTrace(stackId, statuses)[3 * j] == DescribeStacks(stackId)
      ensures PollTrace(stackId, statuses)[3 * j + 1] == Print(StackWaiting(statuses[j]))
      ensures PollTrace(stackId, statuses)[3 * j + 2] == Sleep(POLL_INTERVAL)
    {
      WaitingTraceAt(stackId, waited, j);
    }
    WaitingTraceCounts(stackId, waited);
    CountAppend(WaitingTrace(stackId, waited), last);
    CountTwo(last[0], last[1]);
  }

  /** Without a terminal status every observed status is waited on. */
  lemma PollTraceNeverStops(stackId: string, statuses: seq<string>)
    requires FirstTerminal(statuses) == None
    ensures |PollTrace(stackId, statuses)| == 3 * |statuses|
    ensures Count(PollTrace(stackId, statuses), SleepKind) == |statuses|
    ensures Count(PollTrace(stackId, statuses), DescribeKind) == |statuses|
    ensures Count(PollTrace(stackId, statuses), SubmitKind) == 0
  {
    WaitingTraceLength(stackId, statuses);
    WaitingTraceCounts(stackId, statuses);
  }

  /** Statuses after the first terminal one are never read. */
  lemma {:induction false} PollTraceIgnoresLaterStatuses(stackId: string, statuses: seq<string>, later: seq<string>)
    requires FirstTerminal(statuses).Some?
    ensures FirstTerminal(statuses + later) == FirstTerminal(statuses)
    ensures PollTrace(stackId, statuses + later) == PollTrace(stackId, statuses)
  {
    var k := FirstTerminal(statuses).value;
    var all := statuses + later;
    assert forall j :: 0 <= j <= k ==> all[j] == statuses[j];
    assert all[..k] == statuses[..k];
  }

  /** wait_for_stack_completion: poll until the first terminal status. Returns the index of
      that status, or None when the observed statuses ran out with the loop still running. */
  method WaitForStackCompletion(stackId: string, statuses: seq<string>) returns (stop: Option<nat>, events: seq<Event>)
    ensures stop == FirstTerminal(statuses)
    ensures events == PollTrace(stackId, statuses)
  {
    events := [];
    var i := 0;
    while i < |statuses|
      invariant 0 <= i <= |statuses|
      invariant forall j :: 0 <= j < i ==> !IsTerminal(statuses[j])
      invariant events == WaitingTrace(stackId, statuses[..i])
    {
      var status := statuses[i];
      var verdict := Classify(status);
      if verdict == Succeeded {
        events := events + [DescribeStacks(stackId), Print(StackComplete(status))];
        stop := Some(i);
        return;
      } else if verdict == Failed {
        events := events + [DescribeStacks(stackId), Print(StackFailed(status))];
        stop := Some(i);
        return;
      }
      events := events + [DescribeStacks(stackId), Print(StackWaiting(status)), Sleep(POLL_INTERVAL)];
      assert statuses[..i + 1][..i] == statuses[..i];
      i := i + 1;
    }
    assert statuses[..i] == statuses;
    stop := None;
  }

  // ---------------------------------------------------------------------------
  // Submission: create or update

  /** does_stack_exist: true when describe_stacks succeeds, false on a ValidationError,
      and any other ClientError propagates. */
  method DoesStackExist(stackName: string, reply: Reply<seq<StackDescription>>) returns (r: Outcome<bool>, events: seq<Event>)
    ensures events == [DescribeStacks(stackName)]
    ensures r == Returned(true) <==> reply.Ok?
    ensures r == Returned(false) <==> reply.Err? && reply.error.code == VALIDATION_ERROR
    ensures r.Raised? <==> reply.Err? && reply.error.code != VALIDATION_ERROR
    ensures r.Raised? ==> r.exc == ClientErr(reply.error)
    ensures !r.StillPolling?
  {
    events := [DescribeStacks(stackName)];
    match reply
    case Ok(_) =>
      r := Returned(true);
    case Err(e) =>
      if e.code == VALIDATION_ERROR {
        r := Returned(false);
      } else {
        r := Raised(ClientErr(e));
      }
  }

  /** The existence probe raises: a ClientError other than ValidationError. */
  predicate ProbeRaises(cfn: CloudFormation)
  {
    cfn.existsReply.Err? && cfn.existsReply.error.code != VALIDATION_ERROR
  }

  /** The line deploy_cloudformation_stack prints when the submission is refused. */
  function SubmitErrorMessage(update: bool, e: ClientError): (m: Message)
    ensures m == NoUpdates <==> update && e.code == VALIDATION_ERROR && OccursIn(NO_UPDATES_TEXT, e.text)
    ensures m != NoUpdates ==> m == (if update then UpdateError(e) else CreateError(e))
  {
    if update then
      if e.code == VALIDATION_ERROR && Contains(e.text, NO_UPDATES_TEXT) then NoUpdates
      else UpdateError(e)
    else CreateError(e)
  }

  /** What deploy_cloudformation_stack returns: the probe's exception, the StackId of an
      accepted submission, or None when the submission is refused. */
  function SubmitResult(cfn: CloudFormation): Outcome<Option<string>>
  {
    if ProbeRaises(cfn) then Raised(ClientErr(cfn.existsReply.error))
    else match cfn.submitReply
      case Ok(stackId) => Returned(Some(stackId))
      case Err(_) => Returned(None)
  }

  /** The announcement and the submission: update_stack for an existing stack, create_stack otherwise. */
  function SubmitCall(stackName: string, templateBody: string, parameters: seq<Parameter>, update: bool): seq<Event>
  {
    if update then [Print(Updating(stackName)), UpdateStack(stackName, templateBody, parameters, CAPABILITIES)]
    else [Print(Creating(stackName)), CreateStack(stackName, templateBody, parameters, CAPABILITIES)]
  }

  /** The error line printed when the submission is refused. */
  function SubmitReport(cfn: CloudFormation): seq<Event>
  {
    if cfn.submitReply.Err? then [Print(SubmitErrorMessage(cfn.existsReply.Ok?, cfn.submitReply.error))] else []
  }

  /** The effects of deploy_cloudformation_stack: the existence probe; unless it raises, the
      announcement and the submission; and the error line when the submission is refused. */
  function SubmitTrace(stackName: string, templateBody: string, parameters: seq<Parameter>, cfn: CloudFormation): seq<Event>
  {
    [DescribeStacks(stackName)] +
    if ProbeRaises(cfn) then []
    else SubmitCall(stackName, templateBody, parameters, cfn.existsReply.Ok?) + SubmitReport(cfn)
  }

  /** deploy_cloudformation_stack raises exactly when the probe does, and otherwise returns
      None exactly when the submission is refused. */
  lemma SubmitResultCases(cfn: CloudFormation)
    ensures SubmitResult(cfn).Raised? <==> ProbeRaises(cfn)
    ensures SubmitResult(cfn) == Returned(None) <==> !ProbeRaises(cfn) && cfn.submitReply.Err?
    ensures !SubmitResult(cfn).StillPolling?
  {
  }

  /** The shape of the submission's effects: exactly one describe call, no sleep, and one
      submission, update_stack when the stack exists and create_stack when it does not,
      carrying the template and parameters it was given. */
  lemma SubmitTraceShape(stackName: string, templateBody: string, parameters: seq<Parameter>, cfn: CloudFormation)
    ensures var t := SubmitTrace(stackName, templateBody, parameters, cfn);
      |t| >= 1 && t[0] == DescribeStacks(stackName) &&
      (ProbeRaises(cfn) ==> |t| == 1) &&
      (cfn.existsReply.Ok? ==> |t| >= 3 && t[2] == UpdateStack(stackName, templateBody, parameters, CAPABILITIES)) &&
      (cfn.existsReply.Err? && !ProbeRaises(cfn) ==>
        |t| >= 3 && t[2] == CreateStack(stackName, templateBody, parameters, CAPABILITIES))
    ensures var t := SubmitTrace(stackName, templateBody, parameters, cfn);
      Count(t, DescribeKind) == 1 && Count(t, SleepKind) == 0 &&
      Count(t, SubmitKind) == (if ProbeRaises(cfn) then 0 else 1)
    ensures forall e | e in SubmitTrace(stackName, templateBody, parameters, cfn) && IsSubmission(e) ::
      e.parameters == parameters && e.templateBody == templateBody
  {
    var t := SubmitTrace(stackName, templateBody, parameters, cfn);
    CountOne(DescribeStacks(stackName));
    if !ProbeRaises(cfn) {
      var call := SubmitCall(stackName, templateBody, parameters, cfn.existsReply.Ok?);
      var report := SubmitReport(cfn);
      CountTwo(call[0], call[1]);
      assert call == [call[0], call[1]];
      if cfn.submitReply.Err? {
        CountOne(report[0]);
      }
      CountAppend(call, report);
      CountAppend([DescribeStacks(stackName)], call + report);
    }
  }

  /** deploy_cloudformation_stack: an existing stack is updated, a missing one created;
      the StackId is returned on success and None on any ClientError of the submission,
      after printing the update's, the no-update or the creation's error line. */
  method DeployCloudFormationStack(stackName: string, templateBody: string, parameters: seq<Parameter>, cfn: CloudFormation)
    returns (r: Outcome<Option<string>>, events: seq<Event>)
    ensures r == SubmitResult(cfn)
    ensures events == SubmitTrace(stackName, templateBody, parameters, cfn)
  {
    var exists_, probeEvents := DoesStackExist(stackName, cfn.existsReply);
    events := probeEvents;
    if exists_.Raised? {
      r := Raised(exists_.exc);
      return;
    }
    var update := exists_ == Returned(true);
    events := events + SubmitCall(stackName, templateBody, parameters, update);
    match cfn.submitReply
    case Ok(stackId) =>
      r := Returned(Some(stackId));
    case Err(e) =>
      events := events + [Print(SubmitErrorMessage(update, e))];
      r := Returned(None);
  }

  // ---------------------------------------------------------------------------
  // Outputs

  /** What get_stack_outputs returns for a describe_stacks reply: None on a ClientError;
      IndexError when no stack is listed and KeyError when the first has no `Outputs`
      (neither is caught); otherwise the OutputKey to OutputValue dict. */
  function OutputsResult(reply: Reply<seq<StackDescription>>): Outcome<Option<Dict>>
  {
    match reply
    case Err(_) => Returned(None)
    case Ok(stacks) =>
      if stacks == [] then Raised(IndexError(INDEX_MESSAGE))
      else match stacks[0].outputs
        case None => Raised(KeyError("Outputs"))
        case Some(outs) => Returned(Some(ToDict(outs)))
  }

  /** The line printed for each output. */
  function OutputMessages(outs: seq<Output>): (ms: seq<Message>)
    ensures |ms| == |outs|
    ensures forall i :: 0 <= i < |outs| ==> ms[i] == OutputLine(outs[i].key, outs[i].value)
  {
    seq(|outs|, i requires 0 <= i < |outs| => OutputLine(outs[i].key, outs[i].value))
  }

  /** The dict get_stack_outputs returns has exactly the OutputKeys as keys, and each maps to the
      value of its last occurrence. */
  lemma OutputsResultDict(reply: Reply<seq<StackDescription>>, d: Dict)
    requires OutputsResult(reply) == Returned(Some(d))
    ensures reply.Ok? && reply.value != [] && reply.value[0].outputs.Some?
    ensures d.Keys == KeysOf(reply.value[0].outputs.value)
    ensures forall i :: 0 <= i < |reply.value[0].outputs.value| ==>
      var outs := reply.value[0].outputs.value;
      (forall j :: i < j < |outs| ==> outs[j].key != outs[i].key) ==> d[outs[i].key] == outs[i].value
  {
    var outs := reply.value[0].outputs.value;
    ToDictKeys(outs);
    forall i | 0 <= i < |outs| && (forall j :: i < j < |outs| ==> outs[j].key != outs[i].key)
      ensures d[outs[i].key] == outs[i].value
    {
      ToDictLastWins(outs, i);
    }
  }

  /** The effects of get_stack_outputs: one describe call, then either the error line or
      one line per output (none when the first lookup raises). */
  function OutputsTrace(stackName: string, reply: Reply<seq<StackDescription>>): seq<Event>
  {
    [DescribeStacks(stackName)] +
    match reply
    case Err(e) => [Print(OutputsError(e))]
    case Ok(stacks) =>
      if stacks == [] || stacks[0].outputs.None? then []
      else Printed(OutputMessages(stacks[0].outputs.value))
  }

  /** Reading the outputs makes one describe call and nothing else but printing. */
  lemma OutputsTraceCounts(stackName: string, reply: Reply<seq<StackDescription>>)
    ensures var t := OutputsTrace(stackName, reply);
      |t| >= 1 && t[0] == DescribeStacks(stackName) &&
      Count(t, DescribeKind) == 1 && Count(t, SleepKind) == 0 && Count(t, SubmitKind) == 0
    ensures var t := OutputsTrace(stackName, reply);
      forall i :: 1 <= i < |t| ==> t[i].Print?
  {
    var t := OutputsTrace(stackName, reply);
    var tail := t[1..];
    assert t == [t[0]] + tail;
    CountOne(t[0]);
    CountAppend([t[0]], tail);
    if reply.Err? {
      CountOne(tail[0]);
    } else if tail != [] {
      var outs := reply.value[0].outputs.value;
      PrintedCount(OutputMessages(outs), DescribeKind);
      PrintedCount(OutputMessages(outs), SleepKind);
      PrintedCount(OutputMessages(outs), SubmitKind);
    }
  }

  /** get_stack_outputs: one describe_stacks call; each output printed and stored in the dict
      in turn; a ClientError printed and answered with None. */
  method GetStackOutputs(stackName: string, reply: Reply<seq<StackDescription>>)
    returns (r: Outcome<Option<Dict>>, events: seq<Event>)
    ensures r == OutputsResult(reply)
    ensures events == OutputsTrace(stackName, reply)
  {
    events := [DescribeStacks(stackName)];
    match reply
    case Err(e) =>
      events := events + [Print(OutputsError(e))];
      r := Returned(None);
    case Ok(stacks) =>
      if stacks == [] {
        r := Raised(IndexError(INDEX_MESSAGE));
        return;
      }
      match stacks[0].outputs
      case None =>
        r := Raised(KeyError("Outputs"));
      case Some(outs) =>
        var d: Dict := map[];
        for i := 0 to |outs|
          invariant d == ToDict(outs[..i])
          invariant events == [DescribeStacks(stackName)] + Printed(OutputMessages(outs[..i]))
        {
          assert outs[..i + 1][..i] == outs[..i];
          events := events + [Print(OutputLine(outs[i].key, outs[i].value))];
          d := d[outs[i].key := outs[i].value];
        }
        assert outs[..|outs|] == outs;
        r := Returned(Some(d));
  }

  // ---------------------------------------------------------------------------
  // deploy_stack

  /** The stack is submitted and the returned StackId is truthy, so the script polls. */
  predicate WillPoll(cfn: CloudFormation)
  {
    !ProbeRaises(cfn) && cfn.submitReply.Ok? && cfn.submitReply.value != ""
  }

  /** What deploy_stack returns: the probe's exception; None when no truthy StackId came back;
      otherwise, once a terminal status is reached, whatever get_stack_outputs returns. */
  function DeployedOutputs(cfn: CloudFormation): Outcome<Option<Dict>>
  {
    if ProbeRaises(cfn) then Raised(ClientErr(cfn.existsReply.error))
    else if !WillPoll(cfn) then Returned(None)
    else if FirstTerminal(cfn.statuses).None? then StillPolling
    else OutputsResult(cfn.outputsReply)
  }

  /** The effects of deploy_stack after the submission: when it polls, the wait loop
      followed (once a terminal status is seen) by the outputs lookup; otherwise nothing. */
  function AfterSubmit(stackName: string, cfn: CloudFormation): seq<Event>
  {
    if !WillPoll(cfn) then []
    else
      var poll := PollTrace(cfn.submitReply.value, cfn.statuses);
      if FirstTerminal(cfn.statuses).None? then poll else poll + OutputsTrace(stackName, cfn.outputsReply)
  }

  /** The effects of deploy_stack: the template read, the submission, and what follows it. */
  function DeployTrace(stackName: string, templateFile: string, template: string, parameters: seq<Parameter>, cfn: CloudFormation): seq<Event>
  {
    [ReadFile(templateFile)] + SubmitTrace(stackName, template, parameters, cfn) + AfterSubmit(stackName, cfn)
  }

  /** After the submission nothing is submitted again; the loop sleeps once per waited status
      and describes the stack once per observed status, plus once more for the outputs. */
  lemma AfterSubmitCounts(stackName: string, cfn: CloudFormation)
    ensures Count(AfterSubmit(stackName, cfn), SubmitKind) == 0
    ensures !WillPoll(cfn) ==> AfterSubmit(stackName, cfn) == []
    ensures WillPoll(cfn) && FirstTerminal(cfn.statuses).Some? ==>
      Count(AfterSubmit(stackName, cfn), SleepKind) == FirstTerminal(cfn.statuses).value &&
      Count(AfterSubmit(stackName, cfn), DescribeKind) == FirstTerminal(cfn.statuses).value + 2
    ensures WillPoll(cfn) && FirstTerminal(cfn.statuses).None? ==>
      Count(AfterSubmit(stackName, cfn), SleepKind) == |cfn.statuses| &&
      Count(AfterSubmit(stackName, cfn), DescribeKind) == |cfn.statuses|
  {
    if WillPoll(cfn) {
      var poll := PollTrace(cfn.submitReply.value, cfn.statuses);
      match FirstTerminal(cfn.statuses)
      case None =>
        PollTraceNeverStops(cfn.submitReply.value, cfn.statuses);
        assert AfterSubmit(stackName, cfn) == poll;
      case Some(k) =>
        var outs := OutputsTrace(stackName, cfn.outputsReply);
        PollTraceStops(cfn.submitReply.value, cfn.statuses, k);
        OutputsTraceCounts(stackName, cfn.outputsReply);
        CountAppend(poll, outs);
    }
  }

  /** The counts of the whole of deploy_stack's effects are those of its two parts. */
  lemma DeployTraceCount(stackName: string, templateFile: string, template: string, parameters: seq<Parameter>, cfn: CloudFormation, k: Kind)
    requires k != FileKind
    ensures Count(DeployTrace(stackName, templateFile, template, parameters, cfn), k) ==
      Count(SubmitTrace(stackName, template, parameters, cfn), k) + Count(AfterSubmit(stackName, cfn), k)
  {
    var submit := SubmitTrace(stackName, template, parameters, cfn);
    var after := AfterSubmit(stackName, cfn);
    CountOne(ReadFile(templateFile));
    CountAppend([ReadFile(templateFile)], submit + after);
    CountAppend(submit, after);
    assert DeployTrace(stackName, templateFile, template, parameters, cfn) == [ReadFile(templateFile)] + (submit + after);
  }

  /** The verdict of the terminal status does not change what deploy_stack returns:
      a failed stack's outputs are fetched and returned like a completed one's. */
  lemma VerdictDoesNotChangeResult(cfn1: CloudFormation, cfn2: CloudFormation)
    requires cfn1.existsReply == cfn2.existsReply && cfn1.submitReply == cfn2.submitReply
    requires cfn1.outputsReply == cfn2.outputsReply
    requires FirstTerminal(cfn1.statuses).Some? && FirstTerminal(cfn2.statuses).Some?
    ensures DeployedOutputs(cfn1) == DeployedOutputs(cfn2)
  {
  }

  /** deploy_stack returns None without polling when the submission yields no truthy StackId. */
  lemma NoStackIdNoPolling(stackName: string, templateFile: string, template: string, parameters: seq<Parameter>, cfn: CloudFormation)
    requires !ProbeRaises(cfn) && !WillPoll(cfn)
    ensures DeployedOutputs(cfn) == Returned(None)
    ensures var t := DeployTrace(stackName, templateFile, template, parameters, cfn);
      Count(t, DescribeKind) == 1 && Count(t, SleepKind) == 0 && Count(t, SubmitKind) == 1
  {
    SubmitTraceShape(stackName, template, parameters, cfn);
    AfterSubmitCounts(stackName, cfn);
    DeployTraceCount(stackName, templateFile, template, parameters, cfn, DescribeKind);
    DeployTraceCount(stackName, templateFile, template, parameters, cfn, SleepKind);
    DeployTraceCount(stackName, templateFile, template, parameters, cfn, SubmitKind);
  }

  /** When the loop reaches a terminal status at index k, deploy_stack has slept k times and
      described the stack k + 3 times (probe, k + 1 polls, outputs), whatever the verdict. */
  lemma PolledToTerminal(stackName: string, templateFile: string, template: string, parameters: seq<Parameter>, cfn: CloudFormation, k: nat)
    requires WillPoll(cfn) && FirstTerminal(cfn.statuses) == Some(k)
    ensures DeployedOutputs(cfn) == OutputsResult(cfn.outputsReply)
    ensures var t := DeployTrace(stackName, templateFile, template, parameters, cfn);
      Count(t, SleepKind) == k && Count(t, DescribeKind) == k + 3 && Count(t, SubmitKind) == 1
  {
    SubmitTraceShape(stackName, template, parameters, cfn);
    AfterSubmitCounts(stackName, cfn);
    DeployTraceCount(stackName, templateFile, template, parameters, cfn, DescribeKind);
    DeployTraceCount(stackName, templateFile, template, parameters, cfn, SleepKind);
    DeployTraceCount(stackName, templateFile, template, parameters, cfn, SubmitKind);
  }

  /** When no terminal status is ever observed, every status cost one describe call and one sleep. */
  lemma PolledForever(stackName: string, templateFile: string, template: string, parameters: seq<Parameter>, cfn: CloudFormation)
    requires WillPoll(cfn) && FirstTerminal(cfn.statuses).None?
    ensures DeployedOutputs(cfn) == StillPolling
    ensures var t := DeployTrace(stackName, templateFile, template, parameters, cfn);
      Count(t, SleepKind) == |cfn.statuses| && Count(t, DescribeKind) == |cfn.statuses| + 1 &&
      Count(t, SubmitKind) == 1
  {
    SubmitTraceShape(stackName, template, parameters, cfn);
    AfterSubmitCounts(stackName, cfn);
    DeployTraceCount(stackName, templateFile, template, parameters, cfn, DescribeKind);
    DeployTraceCount(stackName, templateFile, template, parameters, cfn, SleepKind);
    DeployTraceCount(stackName, templateFile, template, parameters, cfn, SubmitKind);
  }

  /** deploy_stack starts with the template read and the existence probe, submits at most once,
      and the submission carries the template it read and the parameters it was given. */
  lemma DeployTraceSubmission(stackName: string, templateFile: string, template: string, parameters: seq<Parameter>, cfn: CloudFormation)
    ensures var t := DeployTrace(stackName, templateFile, template, parameters, cfn);
      |t| >= 2 && t[0] == ReadFile(templateFile) && t[1] == DescribeStacks(stackName) &&
      Count(t, SubmitKind) <= 1 &&
      forall e | e in t && IsSubmission(e) :: e.parameters == parameters && e.templateBody == template
  {
    var t := DeployTrace(stackName, templateFile, template, parameters, cfn);
    var submit := SubmitTrace(stackName, template, parameters, cfn);
    var after := AfterSubmit(stackName, cfn);
    SubmitTraceShape(stackName, template, parameters, cfn);
    AfterSubmitCounts(stackName, cfn);
    DeployTraceCount(stackName, templateFile, template, parameters, cfn, SubmitKind);
    CountZero(after, SubmitKind);
    forall e | e in t && IsSubmission(e)
      ensures e.parameters == parameters && e.templateBody == template
    {
      assert t == [ReadFile(templateFile)] + submit + after;
      assert e in submit || e in after;
    }
  }

  /** deploy_stack: read the template, submit it, and when a truthy StackId comes back,
      wait for a terminal status and return the stack's outputs. */
  method DeployStack(stackName: string, templateFile: string, template: string, parameters: seq<Parameter>, cfn: CloudFormation)
    returns (r: Outcome<Option<Dict>>, events: seq<Event>)
    ensures r == DeployedOutputs(cfn)
    ensures events == DeployTrace(stackName, templateFile, template, parameters, cfn)
  {
    var submitted, submitEvents := DeployCloudFormationStack(stackName, template, parameters, cfn);
    var after: seq<Event> := [];
    if submitted.Raised? {
      r := Raised(submitted.exc);
    } else if !Truthy(submitted.value) {
      r := Returned(None);
    } else {
      var stackId := submitted.value.value;
      var stop, pollEvents := WaitForStackCompletion(stackId, cfn.statuses);
      after := pollEvents;
      if stop.None? {
        r := StillPolling;
      } else {
        var outputs, outputEvents := GetStackOutputs(stackName, cfn.outputsReply);
        after := after + outputEvents;
        r := outputs;
      }
    }
    assert after == AfterSubmit(stackName, cfn);
    events := [ReadFile(templateFile)] + submitEvents + after;
  }
}
