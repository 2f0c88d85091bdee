/** The per-delivery dispatch loop (`processWhatsAppMessage`): each
    message in turn becomes a task text (a text body, an audio transcript
    or a fixed marker), is run through the agent without any history, and
    the agent's answer, or a fixed apology when it fails, is sent back to
    the sender. Transcription, the agent runtime, the HTTP transport and
    the clock are oracles indexed by the message's position; what the loop
    does is recorded as a sequence of actions. */
module ProcessMessage {
  import opened Common
  import opened Payload
  import opened SendMessage
  import opened Agent
  import opened Transcribe
  import opened WebhookHelpers

  const TranscriptionFailed := "[Audio transcription failed]"
  const AudioDownloadDir := "./audio-downloads"
  const TaskPrefix := "Housekeeper phone number: "
  const WorkflowSuffix := ". Follow the workflow: determine the right specialist, use get_person, send_message to the specialist, then send a confirmation message to the housekeeper using the provided phone number."

  /** The outside world, one answer per message position: the transcription
      outcome, the agent runtime, the HTTP transport and `new Date()`. */
  datatype Oracles = Oracles(
    transcription: nat -> Result<string>,
    agent: nat -> seq<Turn> -> AgentOutcome,
    transport: nat -> Transport,
    now: nat -> nat)

  /** What the loop did: ran the agent on a conversation, or attempted a
      send (whose failure the loop swallows). */
  datatype Action = RanAgent(conversation: seq<Turn>) | Sent(request: SendRequest, outcome: Result<string>)

  /** The messages the loop iterates over, or None when it returns early
      (a missing `entry[0].changes`, a first change without `value` or
      `messages`) or when reading them throws and the outer handler ends the
      run (no first change, a `messages` value that is not an array). */
  function Messages(entry: Entry): (r: Option<seq<InboundMessage>>)
    ensures r.Some? <==> ValidateWebhookEntry(entry).Some?
    ensures r.Some? ==> r.value == ValidateWebhookEntry(entry).value.messages
  {
    match entry.First()
    case None => None
    case Some(item) =>
      if item.changes.Absent? then None
      else
        match item.changes.First()
        case None => None
        case Some(change) =>
          if change.value.None? then None
          else
            match change.value.value.messages
            case Items(ms) => Some(ms)
            case _ => None
  }

  /** The `config` the loop hands to the transcriber. */
  function AudioConfig(env: Env): (c: TranscribeConfig)
    ensures c.accessToken == env.whatsappAccessToken && c.phoneNumberId == env.whatsappPhoneNumberId
    ensures c.downloadDir == Some(AudioDownloadDir) && c.language.None?
  {
    TranscribeConfig(env.whatsappAccessToken, env.whatsappPhoneNumberId, Some(AudioDownloadDir), None)
  }

  /** What one message asks of the loop. */
  datatype Task = Skip | Abort | Handle(text: string)

  /** The message text: a text message's body (reading it throws, ending
      the run, when the text object is missing); an audio message's
      transcript, or the failure marker when transcription fails for any
      reason; every other type, images included, is skipped. */
  function TaskOf(env: Env, m: InboundMessage, transcription: Result<string>): (t: Task)
    ensures t.Skip? <==> m.kind != "text" && m.kind != "audio"
    ensures t.Abort? <==> m.kind == "text" && m.text.None?
    ensures m.kind == "text" && m.text.Some? ==> t == Handle(m.text.value.body)
    ensures m.kind == "audio" ==>
              var heard := ProcessWhatsAppAudioMessage(m, AudioConfig(env), env.openaiApiKey, transcription);
              t == Handle(if heard.Ok? then heard.value else TranscriptionFailed)
    ensures m.kind == "audio" && ExtractAudioMediaInfo(m).None? ==> t == Handle(TranscriptionFailed)
  {
    if m.kind == "text" then
      if m.text.None? then Abort else Handle(m.text.value.body)
    else if m.kind == "audio" then
      var heard := ProcessWhatsAppAudioMessage(m, AudioConfig(env), env.openaiApiKey, transcription);
      Handle(if heard.Ok? then heard.value else TranscriptionFailed)
    else Skip
  }

  /** The agent input: the sender's phone, the message text, and the fixed
      workflow instruction. */
  function AgentInput(senderPhone: string, text: string): (r: string)
    ensures TaskPrefix <= r
  {
    TaskPrefix + senderPhone + ". Task: " + text + WorkflowSuffix
  }

  /** The agent input mentions the sender's phone number and the message text. */
  lemma AgentInputMentions(senderPhone: string, text: string)
    ensures Includes(AgentInput(senderPhone, text), senderPhone)
    ensures Includes(AgentInput(senderPhone, text), text)
  {
    IncludesParts(TaskPrefix, senderPhone, ". Task: ", text, WorkflowSuffix);
  }

  /** The send after an agent run: the final output when it is truthy,
      nothing when it is not, and the apology when the run failed; always
      to the sender, with the given phone number id, never an image. */
  function Reply(env: Env, phoneNumberId: Option<string>, senderPhone: string, outcome: AgentOutcome,
                 transport: Transport): (acts: seq<Action>)
    ensures |acts| <= 1
    ensures acts != [] <==> outcome.Failed? || Truthy(outcome.finalOutput)
    ensures acts != [] ==>
              acts[0].Sent? && acts[0].request.to == Some(senderPhone)
              && acts[0].request.phoneNumberId == phoneNumberId && acts[0].request.imageUrl.None?
              && Truthy(acts[0].request.text)
              && acts[0].outcome == SendWhatsAppText(acts[0].request, env.whatsappAccessToken, transport)
    ensures acts != [] && outcome.Completed? ==> acts[0].request.text == outcome.finalOutput
    ensures outcome.Failed? ==> acts[0].request.text == Some(Apology)
  {
    match outcome
    case Completed(finalOutput) =>
      if Truthy(finalOutput) then
        var req := SendRequest(Some(senderPhone), finalOutput, phoneNumberId, None);
        [Sent(req, SendWhatsAppText(req, env.whatsappAccessToken, transport))]
      else []
    case Failed(_) =>
      var req := SendRequest(Some(senderPhone), Some(Apology), phoneNumberId, None);
      [Sent(req, SendWhatsAppText(req, env.whatsappAccessToken, transport))]
  }

  /** One iteration: stop the run, or go on after these actions. */
  datatype Step = Stop | Continue(actions: seq<Action>)

  /** The iteration for message `m` at position `i`: a skipped message does
      nothing; a handled one runs the agent once, on its task alone, then
      replies. */
  function StepAt(env: Env, phoneNumberId: Option<string>, m: InboundMessage, i: nat, o: Oracles): Step {
    match TaskOf(env, m, o.transcription(i))
    case Skip => Continue([])
    case Abort => Stop
    case Handle(text) =>
      var input := AgentInput(m.from, text);
      Continue([RanAgent(Conversation(input, [], o.now(i)))]
               + Reply(env, phoneNumberId, m.from, RunAgent(input, None, o.now(i), o.agent(i)), o.transport(i)))
  }

  /** An iteration stops the run exactly when reading the text throws, does
      nothing for a skipped type, and otherwise runs the agent once on a
      one-turn conversation holding the agent input, then replies to the
      sender with what that run gave. */
  lemma StepAtShape(env: Env, phoneNumberId: Option<string>, m: InboundMessage, i: nat, o: Oracles)
    ensures var s := StepAt(env, phoneNumberId, m, i, o);
            var task := TaskOf(env, m, o.transcription(i));
            && (s.Stop? <==> task.Abort?)
            && (task.Skip? ==> s == Continue([]))
            && (task.Handle? ==>
                  var input := AgentInput(m.from, task.text);
                  s.Continue? && 1 <= |s.actions| <= 2
                  && s.actions[0] == RanAgent([Turn(User, [ContentPart(InputText, input)], o.now(i))])
                  && s.actions[1..] == Reply(env, phoneNumberId, m.from, o.agent(i)(s.actions[0].conversation),
                                             o.transport(i)))
  {
    var task := TaskOf(env, m, o.transcription(i));
    if task.Handle? {
      var input := AgentInput(m.from, task.text);
      var conversation := Conversation(input, [], o.now(i));
      assert conversation == [Turn(User, [ContentPart(InputText, input)], o.now(i))];
      var acts := StepAt(env, phoneNumberId, m, i, o).actions;
      assert acts[1..] == Reply(env, phoneNumberId, m.from, RunAgent(input, None, o.now(i), o.agent(i)), o.transport(i));
    }
  }

  /** The iterations the loop would make over `ms`, one per message. */
  function Steps(env: Env, phoneNumberId: Option<string>, ms: seq<InboundMessage>, o: Oracles): (steps: seq<Step>)
    ensures |steps| == |ms|
    ensures forall k :: 0 <= k < |ms| ==> steps[k] == StepAt(env, phoneNumberId, ms[k], k, o)
  {
    seq(|ms|, k requires 0 <= k < |ms| => StepAt(env, phoneNumberId, ms[k], k, o))
  }

  /** The loop from position `i` on: each iteration's actions in order,
      until one stops the run. */
  function RunFrom(steps: seq<Step>, i: nat): seq<Action>
    decreases |steps| - i
  {
    if i >= |steps| then []
    else
      match steps[i]
      case Stop => []
      case Continue(acts) => acts + RunFrom(steps, i + 1)
  }

  /** Everything the function does for one delivery. */
  function Dispatch(entry: Entry, env: Env, phoneNumberId: Option<string>, o: Oracles): (acts: seq<Action>)
    ensures ValidateWebhookEntry(entry).None? ==> acts == []
  {
    match Messages(entry)
    case None => []
    case Some(ms) => RunFrom(Steps(env, phoneNumberId, ms, o), 0)
  }

  /** The body of one iteration: read the message text, run the agent on
      it, and send the reply or the apology; `stop` when reading the text
      throws, and no actions for a type the loop skips. */
  method Iterate(env: Env, phoneNumberId: Option<string>, m: InboundMessage, i: nat, o: Oracles)
    returns (stop: bool, step: seq<Action>)
    ensures stop <==> StepAt(env, phoneNumberId, m, i, o).Stop?
    ensures !stop ==> step == StepAt(env, phoneNumberId, m, i, o).actions
  {
    var messageText: string;
    stop, step := false, [];
    if m.kind == "text" {
      if m.text.None? {
        return true, [];
      }
      messageText := m.text.value.body;
    } else if m.kind == "audio" {
      var heard := ProcessWhatsAppAudioMessage(m, AudioConfig(env), env.openaiApiKey, o.transcription(i));
      messageText := if heard.Ok? then heard.value else TranscriptionFailed;
    } else {
      return;
    }
    var input := AgentInput(m.from, messageText);
    var result := RunAgent(input, None, o.now(i), o.agent(i));
    step := [RanAgent(Conversation(input, [], o.now(i)))];
    match result {
      case Completed(finalOutput) =>
        if Truthy(finalOutput) {
          var req := SendRequest(Some(m.from), finalOutput, phoneNumberId, None);
          step := step + [Sent(req, SendWhatsAppText(req, env.whatsappAccessToken, o.transport(i)))];
        }
      case Failed(_) =>
        var req := SendRequest(Some(m.from), Some(Apology), phoneNumberId, None);
        step := step + [Sent(req, SendWhatsAppText(req, env.whatsappAccessToken, o.transport(i)))];
    }
  }

  /** The loop itself, sending with the given `phone_number_id`: the
      messages in array order, one iteration each, until one stops the run. */
  method DispatchLoop(env: Env, phoneNumberId: Option<string>, ms: seq<InboundMessage>, o: Oracles)
    returns (actions: seq<Action>)
    ensures actions == RunFrom(Steps(env, phoneNumberId, ms, o), 0)
  {
    ghost var steps := Steps(env, phoneNumberId, ms, o);
    actions := [];
    var i := 0;
    while i < |ms|
      invariant 0 <= i <= |ms|
      invariant actions + RunFrom(steps, i) == RunFrom(steps, 0)
    {
      var stop, step := Iterate(env, phoneNumberId, ms[i], i, o);
      if stop {
        LoopEnd(steps, i, actions);
        return;
      }
      LoopAdvance(steps, i, actions, step);
      actions := actions + step;
      i := i + 1;
    }
    LoopEnd(steps, i, actions);
  }

  /** An iteration that goes on adds its actions to those collected. */
  lemma LoopAdvance(steps: seq<Step>, i: nat, actions: seq<Action>, step: seq<Action>)
    requires i < |steps| && steps[i] == Continue(step)
    requires actions + RunFrom(steps, i) == RunFrom(steps, 0)
    ensures (actions + step) + RunFrom(steps, i + 1) == RunFrom(steps, 0)
  {
    assert actions + RunFrom(steps, i) == actions + (step + RunFrom(steps, i + 1));
  }

  /** When the loop ends or an iteration stops it, the actions collected so
      far are the whole run. */
  lemma LoopEnd(steps: seq<Step>, i: nat, actions: seq<Action>)
    requires i == |steps| || (i < |steps| && steps[i].Stop?)
    requires actions + RunFrom(steps, i) == RunFrom(steps, 0)
    ensures actions == RunFrom(steps, 0)
  {
    assert actions + [] == actions;
  }

  /** The entry guards, then the loop over the delivered messages. */
  method ProcessMessages(entry: Entry, env: Env, phoneNumberId: Option<string>, o: Oracles)
    returns (actions: seq<Action>)
    ensures actions == Dispatch(entry, env, phoneNumberId, o)
  {
    var delivered := Messages(entry);
    if delivered.None? {
      return [];
    }
    actions := DispatchLoop(env, phoneNumberId, delivered.value, o);
  }

  /** A property every action of the run has when every iteration's
      actions have it. */
  lemma {:induction false} RunFromKeeps(steps: seq<Step>, i: nat, p: Action -> bool)
    requires forall k :: i <= k < |steps| && steps[k].Continue? ==> forall a :: a in steps[k].actions ==> p(a)
    ensures forall a :: a in RunFrom(steps, i) ==> p(a)
    decreases |steps| - i
  {
    if i < |steps| && steps[i].Continue? {
      RunFromKeeps(steps, i + 1, p);
    }
  }

  /** An iteration that stops the run hides every later one. */
  lemma {:induction false} RunFromStopsAt(steps: seq<Step>, i: nat, k: nat)
    requires i <= k < |steps| && steps[k].Stop?
    ensures RunFrom(steps, i) == RunFrom(steps[..k], i)
    decreases k - i
  {
    if i < k {
      assert steps[..k][i] == steps[i];
      RunFromStopsAt(steps, i + 1, k);
    }
  }

  predicate IsRun(a: Action) { a.RanAgent? }

  predicate IsHandledKind(m: InboundMessage) { m.kind == "text" || m.kind == "audio" }

  /** The iteration goes on, running the agent once when the message is
      text or audio and never otherwise. */
  predicate CountsOneRun(s: Step, m: InboundMessage) {
    s.Continue? && Count(s.actions, IsRun) == if IsHandledKind(m) then 1 else 0
  }

  /** Every iteration over the messages goes on, running the agent once
      exactly for text and audio. */
  predicate EveryStepCountsOneRun(steps: seq<Step>, ms: seq<InboundMessage>) {
    |steps| == |ms| && forall k :: 0 <= k < |ms| ==> CountsOneRun(steps[k], ms[k])
  }

  /** When no iteration stops the run and each one runs the agent once for
      a handled message and never otherwise, the run holds one agent run
      per handled message. */
  lemma {:induction false} RunFromCountsRuns(steps: seq<Step>, ms: seq<InboundMessage>, i: nat)
    requires |steps| == |ms| && i <= |ms|
    requires forall k :: i <= k < |ms| ==> CountsOneRun(steps[k], ms[k])
    ensures Count(RunFrom(steps, i), IsRun) == Count(ms[i..], IsHandledKind)
    decreases |ms| - i
  {
    if i < |ms| {
      var acts := steps[i].actions;
      RunFromCountsRuns(steps, ms, i + 1);
      assert RunFrom(steps, i) == acts + RunFrom(steps, i + 1);
      CountAppend(acts, RunFrom(steps, i + 1), IsRun);
      assert ms[i..][1..] == ms[i + 1..];
    }
  }

  /** The whole run holds one agent run per handled message. */
  lemma RunCountsRuns(steps: seq<Step>, ms: seq<InboundMessage>)
    requires EveryStepCountsOneRun(steps, ms)
    ensures Count(RunFrom(steps, 0), IsRun) == Count(ms, IsHandledKind)
  {
    RunFromCountsRuns(steps, ms, 0);
    assert ms[0..] == ms;
  }

  /** The send's `phone_number_id` as the source writes it: not passed. */
  const AsWrittenPhoneNumberId: Option<string> := None

  /** The error every send fails with when no phone number id is passed. */
  function AsWrittenSendError(env: Env): string {
    if Truthy(env.whatsappAccessToken) then PhoneNumberIdMissing else AccessTokenMissing
  }

  /** `processWhatsAppMessage(entry)` as written. */
  method ProcessWhatsAppMessage(entry: Entry, env: Env, o: Oracles) returns (actions: seq<Action>)
    ensures actions == Dispatch(entry, env, AsWrittenPhoneNumberId, o)
    ensures forall a :: a in actions && a.Sent? ==> a.outcome == Err(AsWrittenSendError(env))
  {
    actions := ProcessMessages(entry, env, AsWrittenPhoneNumberId, o);
    AsWrittenRepliesNeverSent(entry, env, o);
  }

  /** `processWhatsAppMessage(entry)` sending through the housekeeping
      number, as `sendAndStoreResponse` does. */
  method ProcessWhatsAppMessageCorrected(entry: Entry, env: Env, o: Oracles) returns (actions: seq<Action>)
    ensures actions == Dispatch(entry, env, env.whatsappHkPhoneNumberId, o)
    ensures Truthy(env.whatsappHkPhoneNumberId) && Truthy(env.whatsappAccessToken) ==>
              forall a :: a in actions && a.Sent? && Truthy(a.request.to) ==>
                a.outcome.Ok? || SendFailedPrefix <= a.outcome.error
  {
    actions := ProcessMessages(entry, env, env.whatsappHkPhoneNumberId, o);
    if Truthy(env.whatsappHkPhoneNumberId) && Truthy(env.whatsappAccessToken) {
      CorrectedRepliesReachTransport(entry, env, env.whatsappHkPhoneNumberId, o);
    }
  }

  /** A send in one iteration without a phone number id fails at the guard. */
  lemma StepSendFails(env: Env, m: InboundMessage, i: nat, o: Oracles)
    ensures var s := StepAt(env, AsWrittenPhoneNumberId, m, i, o);
            s.Continue? ==> forall a :: a in s.actions && a.Sent? ==> a.outcome == Err(AsWrittenSendError(env))
  {
    StepAtShape(env, AsWrittenPhoneNumberId, m, i, o);
  }

  /** Without a phone number id every send the loop attempts fails at the
      guard, before any post, whatever the transport would do. */
  lemma AsWrittenRepliesNeverSent(entry: Entry, env: Env, o: Oracles)
    ensures forall a :: a in Dispatch(entry, env, AsWrittenPhoneNumberId, o) && a.Sent? ==>
              a.outcome == Err(AsWrittenSendError(env))
  {
    if Messages(entry).Some? {
      var ms := Messages(entry).value;
      var steps := Steps(env, AsWrittenPhoneNumberId, ms, o);
      var p := (a: Action) => a.Sent? ==> a.outcome == Err(AsWrittenSendError(env));
      forall k | 0 <= k < |steps| && steps[k].Continue? ensures forall a :: a in steps[k].actions ==> p(a) {
        StepSendFails(env, ms[k], k, o);
      }
      RunFromKeeps(steps, 0, p);
    }
  }

  /** A send in one iteration with a phone number id and an access token
      passes every guard. */
  lemma StepSendReachesTransport(env: Env, phoneNumberId: Option<string>, m: InboundMessage, i: nat, o: Oracles)
    requires Truthy(phoneNumberId) && Truthy(env.whatsappAccessToken)
    ensures var s := StepAt(env, phoneNumberId, m, i, o);
            s.Continue? ==> forall a :: a in s.actions && a.Sent? && Truthy(a.request.to) ==>
                              a.outcome.Ok? || SendFailedPrefix <= a.outcome.error
  {
    StepAtShape(env, phoneNumberId, m, i, o);
  }

  /** With a phone number id and an access token, every reply passes the
      guards: it can only fail in the transport. */
  lemma CorrectedRepliesReachTransport(entry: Entry, env: Env, phoneNumberId: Option<string>, o: Oracles)
    requires Truthy(phoneNumberId) && Truthy(env.whatsappAccessToken)
    ensures forall a :: a in Dispatch(entry, env, phoneNumberId, o) && a.Sent? && Truthy(a.request.to) ==>
              a.outcome.Ok? || SendFailedPrefix <= a.outcome.error
  {
    if Messages(entry).Some? {
      var ms := Messages(entry).value;
      var steps := Steps(env, phoneNumberId, ms, o);
      var p := (a: Action) => a.Sent? && Truthy(a.request.to) ==> a.outcome.Ok? || SendFailedPrefix <= a.outcome.error;
      forall k | 0 <= k < |steps| && steps[k].Continue? ensures forall a :: a in steps[k].actions ==> p(a) {
        StepSendReachesTransport(env, phoneNumberId, ms[k], k, o);
      }
      RunFromKeeps(steps, 0, p);
    }
  }

  /** A conversation the agent sees holds no history: one user turn with
      one `input_text` item that is an agent input. */
  predicate FreshTask(conversation: seq<Turn>) {
    |conversation| == 1 && conversation[0].role == User && |conversation[0].content| == 1
    && conversation[0].content[0].kind == InputText
    && TaskPrefix <= conversation[0].content[0].text
  }

  /** One iteration hands the agent its task alone. */
  lemma StepFreshTask(env: Env, phoneNumberId: Option<string>, m: InboundMessage, i: nat, o: Oracles)
    ensures var s := StepAt(env, phoneNumberId, m, i, o);
            s.Continue? ==> forall a :: a in s.actions && a.RanAgent? ==> FreshTask(a.conversation)
  {
    StepAtShape(env, phoneNumberId, m, i, o);
  }

  /** The loop never hands the agent any history. */
  lemma HistoryNeverReachesAgent(entry: Entry, env: Env, phoneNumberId: Option<string>, o: Oracles)
    ensures forall a :: a in Dispatch(entry, env, phoneNumberId, o) && a.RanAgent? ==> FreshTask(a.conversation)
  {
    if Messages(entry).Some? {
      var ms := Messages(entry).value;
      var steps := Steps(env, phoneNumberId, ms, o);
      var p := (a: Action) => a.RanAgent? ==> FreshTask(a.conversation);
      forall k | 0 <= k < |steps| && steps[k].Continue? ensures forall a :: a in steps[k].actions ==> p(a) {
        StepFreshTask(env, phoneNumberId, ms[k], k, o);
      }
      RunFromKeeps(steps, 0, p);
    }
  }

  /** A text message without a text object ends the run: the messages after
      it are never looked at. */
  lemma AbortDropsTheRest(env: Env, phoneNumberId: Option<string>, ms: seq<InboundMessage>, k: nat, o: Oracles)
    requires k < |ms| && ms[k].kind == "text" && ms[k].text.None?
    ensures RunFrom(Steps(env, phoneNumberId, ms, o), 0) == RunFrom(Steps(env, phoneNumberId, ms[..k], o), 0)
  {
    var steps := Steps(env, phoneNumberId, ms, o);
    assert steps[k].Stop?;
    RunFromStopsAt(steps, 0, k);
    assert steps[..k] == Steps(env, phoneNumberId, ms[..k], o);
  }

  /** One iteration over a message that does not stop the run runs the
      agent once when the message is text or audio and not at all
      otherwise. */
  lemma StepRunsOnce(env: Env, phoneNumberId: Option<string>, ms: seq<InboundMessage>, k: nat, o: Oracles)
    requires k < |ms| && !(ms[k].kind == "text" && ms[k].text.None?)
    ensures CountsOneRun(Steps(env, phoneNumberId, ms, o)[k], ms[k])
  {
    var m := ms[k];
    StepAtShape(env, phoneNumberId, m, k, o);
    var acts := StepAt(env, phoneNumberId, m, k, o).actions;
    if IsHandledKind(m) && |acts| == 2 {
      assert acts[1..][1..] == [];
    }
  }

  /** When no message stops the run, the agent runs exactly once per text
      or audio message. */
  lemma OneRunPerHandledMessage(env: Env, phoneNumberId: Option<string>, ms: seq<InboundMessage>, o: Oracles)
    requires forall k :: 0 <= k < |ms| ==> !(ms[k].kind == "text" && ms[k].text.None?)
    ensures Count(RunFrom(Steps(env, phoneNumberId, ms, o), 0), IsRun) == Count(ms, IsHandledKind)
  {
    StepsRunOnce(env, phoneNumberId, ms, o);
    RunCountsRuns(Steps(env, phoneNumberId, ms, o), ms);
  }

  /** Each iteration over messages that do not stop the run goes on and runs
      the agent once per text or audio message. */
  lemma StepsRunOnce(env: Env, phoneNumberId: Option<string>, ms: seq<InboundMessage>, o: Oracles)
    requires forall k :: 0 <= k < |ms| ==> !(ms[k].kind == "text" && ms[k].text.None?)
    ensures EveryStepCountsOneRun(Steps(env, phoneNumberId, ms, o), ms)
  {
    forall k | 0 <= k < |ms| ensures CountsOneRun(Steps(env, phoneNumberId, ms, o)[k], ms[k]) {
      StepRunsOnce(env, phoneNumberId, ms, k, o);
    }
  }
}
