# Group-chat relay: a verified model

This project models the group-chat relay of the collaborative A2A examples and proves what it
guarantees. N agents each hold a bidirectional stream; every client request goes to all of them, and
every agent's output is translated and sent to all the others. `dafny verify dfyconfig.toml` checks it.

The relay exists in three forms, all of them modelled here:

- **N-streams** (`Relay`, `RelayProperties`, `NStreams`): a queue per agent, one output queue, and a
  counter. Queue puts never suspend, so each loop of puts is one atomic step of a transition system;
  `NStreams.NStreamsBroadcast` is the object with its fields and loops, each method proved to be such a step.
- **Multicast** (`Multicast`, `GroupTransport`): one merged queue for a group channel on which every agent
  also hears itself.
- **The Go relay** (`GoRelay`, `GoProgress`): bounded queues, a first request that opens the stream, a gate for the rest,
  and ids stamped per target, with every field access a step of its own.

On top of the N-streams relay run the four incident-response agents and their client:

- `Execution` and `Executors` give the loop that the agents share and their reactions; `AgentLoops` has them
  as the loops they are, and `AgentSpecs` says what they do in terms of texts and senders only. `Confidence` and `Scenarios` cover the printed and parsed confidence and the wording;
  `Shipped` proves that the shipped wording has what is needed of it.
- `Rooms`, `Progress` and `Conversations` put the agents on the relay with an arbitrary client: what they
  can say, and that it ends. `Echoes` and `GroupSessions` carry this over to the group channel.
- `Sessions`, `Incident`, `Bounds`, `Liveness`, `GentleRuns` and `Outcome` close the system with the approving
  client: causal safety in every run, whatever fails; finiteness; and the guaranteed outcome of every
  maximal failure-free run. `GroupIncident` and `GroupOutcome` do the same over the group channel.
- `StreamLogs` and `GroupLogs` say exactly which logs the runs over either transport have: the same ones.

`FanIn` and `LlmLoop` model the Go agent's routing of follow-up messages and its loop around a language model; `GoRouting`
follows a request from the Go relay into the inbox of an execution.

Auxiliary components such as `log`, `delivered`, `yielded`, `enqueued` and `accepted` record history; no step
reads them.

## Where the code differs from what is said about it

- `examples/collaborative/incident-response/multicast_transport.py:94-95` says every agent has a guard against
  its own name. The diagnostics and the remediation agent have none. The session is unaffected all the same,
  because no agent's texts contain what it reacts to (`Echoes.EchoesChangeNothing`, `Shipped.ShippedFits`).
- `examples/collaborative/incident-response/README.md:196` promises identical session behaviour for both
  transports. `Multicast.TransportsAgreeIffAttributable` says exactly when the streams agree; an artifact, and a
  message update from outside, break it (`Multicast.ArtifactEchoes`, `Multicast.ForeignUpdateEchoes`). For the
  example's own session the promise holds: run by run, both transports produce the same logs (`GroupLogs.SameSessions`)
  and the same outcome (`Outcome.GuaranteedOutcome`, `GroupOutcome.GroupGuaranteedOutcome`).
- Section 5.2 of the A2A Collaborative Task extension wants a sender on every delivered item and section 5.3
  wants the receiver's ids. The relay stamps neither artifacts nor sender-less message updates and forwards
  ids as the origin wrote them; the model does the same (`Wire.TranslationPreservesContent`).
- Section 7.2 of the SLIMRPC binding says an interrupted state closes the stream. The remediation agent's plan
  is sent in such a state, and its stream goes on; the traces here are the code's.
- `examples/a2a-collaborate/main.go:117` says ids are set correctly when a request is enqueued. That holds
  exactly for requests for which the guards at lines 88 and 91 find the target's ids on record, or an empty id is
  right (`GoRelay.StampIsRightIff`), which is before they are enqueued; the gate does not help the others
  (`GoRelay.HeldBackRequestCanBeUnstamped`), and they miss the execution they are for (`GoRouting.RelayedRequestEndsInIff`).
- `examples/a2a-collaborate/main.go:112-113` waits for the agent's task before sending on. What is held back is sent in
  some continuation exactly if the gate is open or the reader can still open it (`GoProgress.MoreIsSentIff`), and exactly
  then a worker that finds the queue full can go on (`GoProgress.WorkerGoesOnIff`). If the stream ends first, neither happens
  (`GoProgress.EndedForGood`, `GoProgress.JamHappens`).
- `examples/a2a-collaborate-agent/agent.go:64` removes whatever inbox is registered for the task. With
  overlapping executions of one task that can be another one's (`FanIn.OverlapUnregisters`); a running execution is
  unreachable exactly if one of its task was started after it or another one finished since (`FanIn.ReachableIffUndisturbed`).
- `examples/a2a-collaborate-agent/fanin.go:26-30` routes follow-up messages to a running execution. Since the lookup
  comes before the send, a message can be accepted for an execution that has finished meanwhile
  (`FanIn.LateLetterIsStranded`); exactly then nobody will consume it (`FanIn.ConsumableIffRunning`).

## Model

| member | source | states |
|---|---|---|
| `RelayProperties.OneGlobalLog` | examples/collaborative/incident-response/nstreams_transport.py:144-243 | in every state of every run there is one log such that what each agent has taken and still has queued is the log's projection on it, up to and including the closes; every send stream is cut at the same log position, the first close |
| `RelayProperties.ProjectionIsExact` | examples/collaborative/incident-response/nstreams_transport.py:161-243 | the projection holds the client's requests, every close and what is forwarded of the other agents' responses, each exactly once and in log order, and nothing else: no echo, no loss, no duplicate |
| `RelayProperties.StreamIsOfSteps` | examples/collaborative/incident-response/nstreams_transport.py:161-243 | in every run, said of the steps taken: an agent has been sent, or has queued, one item for each client request, under the source's name, one sentinel for each close, and the translation of each response that another agent's reader has read, but for plain messages, in the order of these steps |
| `RelayProperties.CutProjection` | examples/collaborative/incident-response/nstreams_transport.py:171-178 | what an agent reads before its stream ends is the projection of the log up to the first close |
| `RelayProperties.EveryItemIsAttributed` | examples/collaborative/incident-response/nstreams_transport.py:163-229 | every item queued for or taken by any agent in any reachable state: a client message carries the source name if there is one, a task or status item its origin agent's name, a message update the sender it arrived with; none comes from the agent itself |
| `RelayProperties.ThirdPartiesInSameOrder` | examples/collaborative/incident-response/nstreams_transport.py:235-243 | for every log: the log positions that reach one agent and do not come from another are exactly those that reach the other and do not come from the one, in the same order, and the same item stands there for both |
| `RelayProperties.CollectorEndsWhenReadersEnd` | examples/collaborative/incident-response/nstreams_transport.py:248-268 | at any time what was yielded and what is in the output are the responses read in the run, one for each reading step and in order; the collector's count reaches the number of agents exactly when every reader has ended and the output is empty, and by then every response read was yielded once |
| `RelayProperties.EverySendStreamTerminates` | examples/collaborative/incident-response/nstreams_transport.py:245-275 | after the client's close or the teardown every send stream has read a sentinel or has one waiting that it may go on to; every agent is sent the same number of sentinels, whatever the readers did |
| `RelayProperties.FailureIsIsolated` | examples/collaborative/incident-response/nstreams_transport.py:245-252 | a reader that fails adds one end mark and nothing else, and commutes with every step of everybody else: same queues, log, deliveries and output values in either order |
| `Relay.RunKeepsInv` | examples/collaborative/incident-response/nstreams_transport.py:144-275 | the relay's invariant (refinement of one log, output conservation, end-mark count, attribution, sentinel count) holds in every state of every run |
| `Wire.TranslationPreservesContent` | examples/collaborative/incident-response/nstreams_transport.py:49-87 | a forwarded status has the original parts, then one data part for the event; its text, other metadata and ids are the original's, and so are a message update's; a status without a message reads as empty text; tasks and statuses name their origin, message updates keep their sender |
| `Wire.FormOfForwarded` | examples/collaborative/incident-response/nstreams_transport.py:189-238 | everything but a plain message is forwarded; an artifact as it is; a task, or a status without a message, as exactly one data part with its media type and no ids |
| `Wire.SenderIsStamped` | examples/collaborative/incident-response/agents/base.py:127-143 | reading the sender back gives the one that was set; no other metadata key and no other field changes |
| `Wire.FirstTextSkipsData` | examples/collaborative/incident-response/agents/base.py:146-151 | appended parts that are not texts do not change the text that is read |
| `Wire.SenderIsKept` | examples/collaborative/incident-response/agents/base.py:127-143 | the sender stands at one metadata key, alone; it reads as what stands there, and as empty exactly if nothing does |
| `Wire.TextIsFirst` | examples/collaborative/incident-response/agents/base.py:146-151 | the text is that of the first text part, and empty exactly if that is empty or there is none |
| `Wire.AgentMessageIs` | examples/collaborative/incident-response/agents/base.py:112-124 | an agent's message has the agent's role, the task's ids, one text part, the sender, and no other metadata |
| `Wire.StampIs` | examples/collaborative/incident-response/nstreams_transport.py:163-164 | stamping sets the sender and leaves every other field and key; without a source name, or on anything but a message, it changes nothing |
| `Messages.LiveMessage.SetSender` | examples/collaborative/incident-response/agents/base.py:127-131 | the sender is written into the message's own metadata; the rest of the object is unchanged |
| `Messages.LiveMessage.GetText` | examples/collaborative/incident-response/agents/base.py:146-151 | the loop returns the text of the first text part, or the empty string if there is none |
| `Messages.LiveMessage.ForwardCopy` | examples/collaborative/incident-response/nstreams_transport.py:60-69 | the forwarded message is a new object with the prescribed contents; the agent's own message, which the caller also gets, keeps its contents |
| `NStreams.NStreamsBroadcast.constructor` | examples/collaborative/incident-response/nstreams_transport.py:144-149 | one empty queue per agent: the start of the transition system |
| `NStreams.NStreamsBroadcast.PutEverywhere` | examples/collaborative/incident-response/nstreams_transport.py:165-169 | the loop appends the item to every queue once |
| `NStreams.NStreamsBroadcast.PutToPeers` | examples/collaborative/incident-response/nstreams_transport.py:235-243 | the loop appends the item to every queue but the origin's |
| `NStreams.NStreamsBroadcast.FanOutRequest` | examples/collaborative/incident-response/nstreams_transport.py:161-166 | taking one client request is the transition system's fan-out step, and the object stays where its steps lead |
| `NStreams.NStreamsBroadcast.CloseSendSides` | examples/collaborative/incident-response/nstreams_transport.py:167-169 | the end of the fan-out task is the close step |
| `NStreams.NStreamsBroadcast.NextItem` | examples/collaborative/incident-response/nstreams_transport.py:171-178 | a send stream's next item is the head of that agent's queue; nothing else changes |
| `NStreams.NStreamsBroadcast.BuildForward` | examples/collaborative/incident-response/nstreams_transport.py:189-234 | the branches over the response build its translation, or nothing |
| `NStreams.NStreamsBroadcast.ReadResponse` | examples/collaborative/incident-response/nstreams_transport.py:183-243 | reading one response is the read step: one output item, and the translation to every peer |
| `NStreams.NStreamsBroadcast.ReaderDone` | examples/collaborative/incident-response/nstreams_transport.py:245-252 | a reader's end is one end mark on the output and no sentinel |
| `NStreams.NStreamsBroadcast.CollectItem` | examples/collaborative/incident-response/nstreams_transport.py:260-268 | an end mark is counted, a response is yielded, in queue order |
| `NStreams.NStreamsBroadcast.TearDown` | examples/collaborative/incident-response/nstreams_transport.py:269-275 | leaving puts one sentinel into every queue |
| `Multicast.MovesKeepInv` | examples/collaborative/incident-response/multicast_transport.py:128-222 | in every state of every run, what was sent to the group and what is queued are one projection of the log, and the caller has seen every relayed response in order plus at most one pending one |
| `Multicast.StreamIsOfMoves` | examples/collaborative/incident-response/multicast_transport.py:139-215 | in every run, said of the moves made: the caller has been handed every response that has arrived, in order; the log holds these, but for one not relayed yet, each with its translation, and the client's requests and the closes as they were put; the group has been sent, or has queued, one item for each log entry but plain messages, in log order |
| `Multicast.TransportsAgreeIffAttributable` | examples/collaborative/incident-response/multicast_transport.py:130-215 | for every log: dropping own messages from the merged stream gives every agent the stream of its N-streams queue if and only if every client item avoids the agents' names and every forwarded item names its origin |
| `Multicast.WhatIsAttributable` | examples/collaborative/incident-response/multicast_transport.py:141-209 | which items those are: client messages under a name no agent bears; task, status and plain message responses always; a message update exactly if it names its agent; an artifact never |
| `Multicast.TransportsDeliverTheSame` | examples/collaborative/incident-response/multicast_transport.py:130-215 | any N-streams run and any group run that merge the same attributable items in the same order deliver the same stream to every agent |
| `Multicast.ThirdPartiesBySender` | examples/collaborative/incident-response/multicast_transport.py:139-215 | two agents that drop their own messages and each other's from the merged stream are left with the same stream; of an attributable log it is what third parties send to either over point-to-point streams |
| `Multicast.ArtifactEchoes` | examples/collaborative/incident-response/multicast_transport.py:208-209 | a run over the group channel, for every agent and artifact, that sends the artifact back to its author, whose N-streams queue would stay empty |
| `Multicast.ForeignUpdateEchoes` | examples/collaborative/incident-response/multicast_transport.py:192-206 | the same for every message update that does not name the agent it came from |
| `GroupTransport.MulticastBroadcast.PutRequest` | examples/collaborative/incident-response/multicast_transport.py:139-143 | one client request is stamped and queued once |
| `GroupTransport.MulticastBroadcast.CloseSendSide` | examples/collaborative/incident-response/multicast_transport.py:144-145 | the end of the fan-out task queues one sentinel |
| `GroupTransport.MulticastBroadcast.NextItem` | examples/collaborative/incident-response/multicast_transport.py:147-153 | the merged stream's next item is the head of the queue |
| `GroupTransport.MulticastBroadcast.YieldResponse` | examples/collaborative/incident-response/multicast_transport.py:158-163 | a response goes to the caller before it is relayed |
| `GroupTransport.MulticastBroadcast.RelayResponse` | examples/collaborative/incident-response/multicast_transport.py:165-215 | the held response's translation, if any, is queued for the whole group |
| `GroupTransport.MulticastBroadcast.StopRelaying` | examples/collaborative/incident-response/multicast_transport.py:217-222 | the end of the relay loop queues one sentinel |
| `Execution.TraceShape` | examples/collaborative/incident-response/agents/log_agent.py:62-93 | for every reaction and every input sequence: nothing without a message, else task, updates, and one completion exactly if the queue was shut down or the reaction raised an error; the updates are the reactions to the messages heard before the shutdown |
| `Execution.EventsRead` | examples/collaborative/incident-response/agents/log_agent.py:62-93 | for every reaction and every input sequence, field by field: the task under the first message's ids, then for each update a status in its state, with a message of the agent that holds its text, then, exactly if the loop has ended, a completed status without a message, under the same ids |
| `Execution.HeardAreListed` | examples/collaborative/incident-response/agents/log_agent.py:66-78 | the messages heard are exactly those among the inputs before the first shutdown, in order |
| `AgentSpecs.AgentCompletesOnce` | examples/collaborative/incident-response/agents/log_agent.py:62-93 | each of the four agents, on every input sequence, says exactly once that its task is completed, as its last response, if it has heard a message and its loop has ended, and never otherwise |
| `AgentSpecs.MonitoringSpec` | examples/collaborative/incident-response/agents/monitoring_agent.py:67-84 | for every conversation: one working status with the metrics for each line of somebody else that speaks of an anomaly, in whatever case, and nothing else |
| `AgentSpecs.LoggerSpec` | examples/collaborative/incident-response/agents/log_agent.py:79-88 | for every conversation: each log line once, after its mark, in a working status, exactly if there is such a line |
| `AgentSpecs.EvidenceSpec` | examples/collaborative/incident-response/agents/diagnostics_agent.py:80-105 | a line of the monitoring agent that starts with the metrics mark adds exactly the metrics signals whose keyword occurs in it, in whatever case; one of the log agent that starts with the log mark, the log signals that occur in the rest without the blanks around it; each once, in list order; any other line adds nothing |
| `AgentSpecs.DiagnosticsSpec` | examples/collaborative/incident-response/agents/diagnostics_agent.py:72-123 | for every conversation: the evidence is what its lines add, line after line; the confidence is its weight, at most one; one diagnosis in a working status exactly if the weight reaches 0.7, made on the first line with which it does |
| `AgentSpecs.DiagnosisIs` | examples/collaborative/incident-response/agents/diagnostics_agent.py:110-118 | a diagnosis reads as its mark with the confidence to one decimal, the cause, and each piece of evidence once in the order in which they were first found |
| `AgentSpecs.RemediationSpec` | examples/collaborative/incident-response/agents/remediation_agent.py:78-131 | for every conversation: the plan is sent, asking for input, exactly if a line of the diagnostics agent that starts as a diagnosis reads as a number of at least 0.7 and none before it reads as no number; the execution exactly if a later line of anybody grants an approval, in whatever case; an error exactly if an unreadable diagnosis comes first |
| `AgentSpecs.ClientSpec` | examples/collaborative/incident-response/client.py:155-199 | for every sequence of responses: one approval, exactly if some status of the remediation agent holds the plan's mark, after the first such status, and one close for each that holds the mark of an execution, in order |
| `Executors.MonitoringAnswersEveryAlarm` | examples/collaborative/incident-response/agents/monitoring_agent.py:67-84 | one metrics update per alarm of somebody else, and nothing else |
| `Executors.LoggerSendsItsLinesOnce` | examples/collaborative/incident-response/agents/log_agent.py:79-88 | all log lines on the first alarm of somebody else, and never again |
| `Executors.SaturateIsCappedTotal` | examples/collaborative/incident-response/agents/diagnostics_agent.py:95-105 | adding weights capped at one step by step gives the total capped at one |
| `Executors.DiagnosticsAccumulates` | examples/collaborative/incident-response/agents/diagnostics_agent.py:72-123 | for every conversation: confidence is the total evidence weight capped at one; one diagnosis, on the first message with which the total reaches the threshold, with the evidence up to it; none otherwise |
| `Executors.ConfidenceIgnoresOrder` | examples/collaborative/incident-response/agents/diagnostics_agent.py:92-108 | two conversations with the same messages in any order end with the same confidence and the same number of diagnoses |
| `Executors.RemediationPhases` | examples/collaborative/incident-response/agents/remediation_agent.py:78-131 | the plan on the first acceptable diagnosis unless an unreadable one comes first, the execution on the first approval after that, from whomever; an approval before the plan counts for nothing |
| `Strings.DedupKeepsFirstOrder` | examples/collaborative/incident-response/agents/diagnostics_agent.py:112-112 | duplicates are removed keeping the order of first occurrences |
| `Strings.FoldedSearch` | examples/collaborative/incident-response/agents/diagnostics_agent.py:97-98 | searching with both sides in lower or in upper case finds exactly the places where the letters agree but for their case |
| `Strings.StripIs` | examples/collaborative/incident-response/agents/diagnostics_agent.py:94-94 | stripping takes blanks off both ends, and nothing else |
| `Confidence.MatchesIff` | examples/collaborative/incident-response/agents/remediation_agent.py:49-49 | the pattern matches at a position exactly if the label stands there in whatever case, then blanks, then a run of digits and points that cannot be longer, which is what is captured |
| `Confidence.ReadingIs` | examples/collaborative/incident-response/agents/remediation_agent.py:49-86 | a text reads as nothing exactly if the pattern occurs nowhere; otherwise as the run at its leftmost place, which is no number if it has two points or more or is a single point, and else is worth its digits |
| `Confidence.SearchIsLeftmost` | examples/collaborative/incident-response/agents/remediation_agent.py:49-85 | what is captured is captured at the leftmost place where the pattern matches, and nothing if it matches nowhere |
| `Confidence.MalformedIff` | examples/collaborative/incident-response/agents/remediation_agent.py:86-86 | the captured run is no number, so that converting it fails, exactly if it has two points or more or is a single point |
| `Confidence.ReadPrinted` | examples/collaborative/incident-response/agents/remediation_agent.py:85-86 | searching a printed confidence yields the printed number, whatever text follows |
| `Confidence.TenthsNearest` | examples/collaborative/incident-response/agents/diagnostics_agent.py:114-114 | the printed decimal is within a twentieth of the value, and a tie goes to the even digit |
| `Scenarios.DiagnosisReadsBack` | examples/collaborative/incident-response/agents/remediation_agent.py:85-93 | for every confidence and every evidence a printed diagnosis is recognised, reads back within 0.05, and never falls below the threshold once the confidence reached it |
| `AgentLoops.HearLogger` | examples/collaborative/incident-response/agents/log_agent.py:79-88 | the loop body computes the log agent's reaction |
| `AgentLoops.Accumulate` | examples/collaborative/incident-response/agents/diagnostics_agent.py:95-105 | the loop over the signals appends the matched descriptions and the capped weights, in list order |
| `AgentLoops.HearDiagnostics` | examples/collaborative/incident-response/agents/diagnostics_agent.py:92-123 | the loop body computes the diagnostics agent's reaction |
| `AgentLoops.HearRemediation` | examples/collaborative/incident-response/agents/remediation_agent.py:78-131 | the loop body computes the remediation agent's reaction, the failing number conversion included |
| `AgentLoops.RunMonitoring` | examples/collaborative/incident-response/agents/monitoring_agent.py:54-89 | the whole loop emits the executor's event sequence on every input |
| `AgentLoops.RunLogger` | examples/collaborative/incident-response/agents/log_agent.py:62-93 | the whole loop emits the executor's event sequence on every input |
| `AgentLoops.RunDiagnostics` | examples/collaborative/incident-response/agents/diagnostics_agent.py:70-128 | the whole loop emits the executor's event sequence on every input |
| `AgentLoops.RunRemediation` | examples/collaborative/incident-response/agents/remediation_agent.py:59-137 | the whole loop emits the executor's event sequence on every input |
| `AgentLoops.RunClient` | examples/collaborative/incident-response/client.py:155-199 | the client's response loop puts what the reply function prescribes, for every response sequence |
| `Echoes.EchoesChangeNothing` | examples/collaborative/incident-response/multicast_transport.py:94-95 | inserting any number of echoes of what an agent has emitted, anywhere into its input, changes neither its output nor its state, for all four agents |
| `Echoes.GroupSessionIsTheSame` | examples/collaborative/incident-response/multicast_transport.py:94-95 | on the merged stream, itself included, an agent emits and remembers what it does on its N-streams queue |
| `GroupSessions.SameLogs` | examples/collaborative/incident-response/multicast_transport.py:94-95 | for agents that do not react to themselves, in any log: every agent's entry is its next emission on the merged stream exactly if every agent's entry is its next emission on its own projection |
| `GroupSessions.IncidentLogsAreTheSame` | examples/collaborative/incident-response/multicast_transport.py:94-95 | so it is with the four agents: the two conditions on a log are the same one |
| `GroupSessions.NoStormInGroup` | examples/collaborative/incident-response/multicast_transport.py:165-215 | the agents' updates are bounded by the client's alarms over the group channel too |
| `Rooms.ActionKeepsInv` | examples/collaborative/incident-response/nstreams_transport.py:180-268 | with agents attached, every action keeps: each agent is where its reactions to what it took put it, its output was read in order, and every logged response is its next one on the log before |
| `Conversations.AgentEntry` | examples/collaborative/incident-response/agents/remediation_agent.py:78-131 | whatever an agent logs is calm, is called for by its reactions, and reaches every other agent under its name with its text |
| `Conversations.NoBroadcastStorm` | examples/collaborative/incident-response/nstreams_transport.py:240-243 | for any client: at most one metrics update per client alarm, the log lines once, one diagnosis, one plan, one execution; besides, two items per agent |
| `Progress.StepIsCounted` | examples/collaborative/incident-response/nstreams_transport.py:151-275 | every relay step makes exactly one unit of a progress count that depends on the state alone |
| `Bounds.OpenRunsAreBounded` | examples/collaborative/incident-response/nstreams_transport.py:240-268 | with any client, the length of a run is bounded by the client's requests and the alarms among them |
| `Sessions.SessionKeepsInv` | examples/collaborative/incident-response/client.py:144-199 | in every state of every run of a reactive client with its agents, the log consists of the agents' next emissions and the client's next scripted items; a run is as long as the progress made |
| `Incident.ClientSpeaks` | examples/collaborative/incident-response/client.py:135-189 | the client sends nothing but its trigger and its approval, the latter only for a plan it was handed |
| `Incident.ExecutionNeedsApproval` | examples/collaborative/incident-response/agents/remediation_agent.py:114-131 | an execution is preceded by the client's own approval, although the agent would accept one from anybody |
| `Incident.ApprovalNeedsPlan` | examples/collaborative/incident-response/client.py:177-189 | an approval is preceded by the plan |
| `Incident.PlanNeedsDiagnosis` | examples/collaborative/incident-response/agents/remediation_agent.py:78-113 | a plan is preceded by a text of the diagnostics agent that starts as a diagnosis and reads as a number of at least 0.7 |
| `Incident.DiagnosisNeedsTotal` | examples/collaborative/incident-response/agents/diagnostics_agent.py:92-123 | a diagnosis is preceded by evidence of at least the threshold, as heard so far |
| `Incident.EvidenceNeedsTrigger` | examples/collaborative/incident-response/agents/log_agent.py:79-88 | every piece of evidence is preceded by the client's trigger |
| `Incident.CausalSafety` | examples/collaborative/incident-response/agents/remediation_agent.py:78-131 | in every run, with any failures and interleaving: whenever an execution occurs, the log holds before it, in this order, the trigger, evidence, a diagnosis that reads as at least 0.7 and had evidence of that weight before it, the plan, and the client's approval |
| `Bounds.ScriptIsDetermined` | examples/collaborative/incident-response/client.py:155-199 | what the client has put is determined by how many texts the remediation agent has said |
| `Bounds.ClientSpeaksTwice` | examples/collaborative/incident-response/client.py:146-189 | at most two requests and one alarm, in every run |
| `Bounds.RunsAreBounded` | examples/collaborative/incident-response/nstreams_transport.py:151-275 | every run of the closed session is finite, with a bound that depends only on the number of log lines |
| `Liveness.NobodyCrashes` | examples/collaborative/incident-response/agents/remediation_agent.py:85-86 | in no log that meets these conditions does any agent raise an error: every printed confidence is a number |
| `Liveness.DiagnosisIsAccepted` | examples/collaborative/incident-response/agents/remediation_agent.py:85-93 | no emitted diagnosis is rejected |
| `Liveness.ApprovalIsNotLost` | examples/collaborative/incident-response/agents/remediation_agent.py:95-119 | the approval reaches the remediation agent after it waits for one, because it starts waiting before its plan is sent |
| `Liveness.NothingIsComplete` | examples/collaborative/incident-response/client.py:146-199 | no log that meets these conditions exists in which every agent has said all it will say, the client has sent all it will send, and nobody has closed |
| `Outcome.GuaranteedOutcome` | examples/collaborative/incident-response/client.py:146-199 | every failure-free run that cannot go on, under any interleaving: the caller has everything and has left, the client sent trigger, one approval and its close, all streams are closed, and each agent said exactly its part between its task and one completed status |
| `Outcome.EveryGentleRunSettles` | examples/collaborative/incident-response/client.py:146-199 | every failure-free run can be continued without failures to one that cannot go on, which is then carried through: such runs exist |
| `GroupIncident.GroupRunsKeepInv` | examples/collaborative/incident-response/multicast_transport.py:130-222 | in every state of every run over the group channel the log consists of the agents' next emissions on the merged stream and the client's next scripted items |
| `GroupIncident.GroupLogsAreLegal` | examples/collaborative/incident-response/multicast_transport.py:130-222 | every log of a run over the group channel meets what every log over point-to-point streams meets: each agent's entry is its next emission on its own projection, each of the client's the next item of its script |
| `StreamLogs.StreamLogsAre` | examples/collaborative/incident-response/nstreams_transport.py:144-275 | for any reactive client and any agents: a log is the log of some run over point-to-point streams exactly if its agent entries are next emissions, its client entries follow the script, and its entries come in time |
| `GroupLogs.GroupLogsAre` | examples/collaborative/incident-response/multicast_transport.py:128-222 | for agents that do not react to themselves, a log is the log of some run over the group channel exactly under the same conditions |
| `GroupLogs.SameSessions` | examples/collaborative/incident-response/README.md:196-196 | the runs of the incident session over the group channel have exactly the same logs as its runs over point-to-point streams |
| `GroupLogs.GroupRunHasStreamsRun` | examples/collaborative/incident-response/README.md:196-196 | every run over the group channel has a run over point-to-point streams with the same log and the same responses handed to the caller, in the same order |
| `GroupLogs.StreamsRunHasGroupRun` | examples/collaborative/incident-response/README.md:196-196 | every run over point-to-point streams has a run over the group channel with the same log, whose caller was handed all that the other's was, in the same order |
| `GroupIncident.GroupCausalSafety` | examples/collaborative/incident-response/agents/remediation_agent.py:78-131 | causal safety in every run over the group channel |
| `GroupIncident.GroupRunsAreBounded` | examples/collaborative/incident-response/multicast_transport.py:157-222 | every run over the group channel is finite, with a bound that depends only on the number of log lines |
| `GroupOutcome.StoppedHasHeard` | examples/collaborative/incident-response/multicast_transport.py:147-153 | an agent that hears itself too has stopped exactly if it has heard a sentinel |
| `GroupOutcome.GroupGuaranteedOutcome` | examples/collaborative/incident-response/README.md:196-196 | the guaranteed outcome over the group channel: the same client log, and for every agent the same output, as over point-to-point streams |
| `GroupOutcome.EveryGentleGroupRunSettles` | examples/collaborative/incident-response/README.md:196-196 | the same over the group channel |
| `Shipped.ShippedFits` | examples/collaborative/incident-response/agents/diagnostics_agent.py:46-60 | the shipped names, texts, keywords and weights meet every assumption of the theorems above |
| `Shipped.DiagnosisFits` | examples/collaborative/incident-response/agents/diagnostics_agent.py:113-118 | a printed diagnosis contains neither keyword, for every confidence and every list of the shipped evidence texts |
| `Shipped.LogsSuffice` | examples/collaborative/incident-response/agents/log_agent.py:46-52 | the shipped log lines alone carry evidence of at least the threshold |
| `Shipped.MetricsAreEvidence` | examples/collaborative/incident-response/agents/diagnostics_agent.py:100-105 | the shipped metrics, heard first, are two pieces of evidence, confidence 0.5 and no diagnosis |
| `Shipped.ShippedOutcome` | examples/collaborative/incident-response/client.py:135-199 | the guaranteed outcome for the shipped wording, within 130 steps |
| `Shipped.ShippedGroupOutcome` | examples/collaborative/incident-response/client.py:135-199 | the guaranteed outcome for the shipped wording over the group channel, within 127 steps |
| `GoRelay.RequestsArriveInOrder` | examples/a2a-collaborate/main.go:83-161 | for every interleaving: what was sent to an agent is an in-order, at-most-once prefix of what was enqueued; the first request opens its stream, none of the rest goes out before its task; nothing comes from itself; ids are empty or its own; queues stay within 100 |
| `GoRelay.EverythingIsDelivered` | examples/a2a-collaborate/main.go:83-161 | for every run: the lines typed, or the events heard on an agent's stream that translate to a message, are enqueued for every other agent once each and in the order of the run, but for the latest while its worker still records or delivers it |
| `GoRelay.EventsAreForwarded` | examples/a2a-collaborate/main.go:145-240 | for every run: the requests that an agent is enqueued from another's stream correspond, one to one and in order, to the task, status and artifact events heard on that stream, but for the latest while its worker still has it; each names that agent as its sender and holds nothing but that very event, under the media type of its kind |
| `GoRelay.LinesAreForwarded` | examples/a2a-collaborate/main.go:83-99 | so do the requests from the user and the lines typed: without a sender, and holding nothing but the line |
| `GoRelay.StampIsRightIff` | examples/a2a-collaborate/main.go:88-93 | a request's task id is its target's exactly if the target's task id was not empty after the steps before the one that read it for this request; its context id exactly if the target's context id was not empty after the steps before the one that read that, or is empty anyway |
| `GoRelay.EveryRequestWasStamped` | examples/a2a-collaborate/main.go:165-171 | every request in an agent's queue was put there by a step of the run, after one step that read its task id and one that read its context id, between which its worker did nothing else |
| `GoRelay.HeldBackRequestCanBeUnstamped` | examples/a2a-collaborate/main.go:112-118 | a run in which a request held back for the task goes out with an empty task id after all |
| `GoProgress.StuckForGood` | examples/a2a-collaborate/main.go:95-99 | a full queue whose gate is closed, and whose reader has ended or is on its way to another such queue, stays as it is in every continuation: nothing is sent from it, and whatever is to be enqueued waits for ever |
| `GoProgress.JamHappens` | examples/a2a-collaborate/main.go:112-126 | a run in which a stream ends before its task, a hundred typed lines fill its queue, and the worker with the next line is stuck for good |
| `GoProgress.MoreIsSentIff` | examples/a2a-collaborate/main.go:106-132 | if something is held back from an agent whose reader is not delivering behind a closed gate: more is sent to it in some continuation exactly if its gate is open, its task is being recorded, or its reader is free and has not announced one yet |
| `GoProgress.OpenAgentDrains` | examples/a2a-collaborate/main.go:106-132 | then everything enqueued for it can be sent by steps of its own alone, whatever the other agents do |
| `GoProgress.EndedForGood` | examples/a2a-collaborate/main.go:112-140 | to an agent whose stream ended behind a closed gate nothing more is sent in any continuation, full queue or not, and no place in its queue gets free |
| `GoProgress.WorkerGoesOnIff` | examples/a2a-collaborate/main.go:95-99 | a worker with a request for such an agent finds room for it in some continuation exactly if there is room, or the gate is open or can still be opened |
| `GoProgress.OpenRelayDrains` | examples/a2a-collaborate/main.go:83-161 | from every reachable state, whatever gates are closed, the relay can go on until everything enqueued for every open agent has been sent and every worker is at rest or waits for an agent of a group that is stuck for good; agents that were open stay so, and nobody waits for them |
| `FanIn.TasksAreIsolated` | examples/a2a-collaborate-agent/fanin.go:69-84 | in every reachable state an inbox holds messages for its own task only, and what its loop consumed is an in-order prefix of what was accepted |
| `FanIn.InboxIsOfSteps` | examples/a2a-collaborate-agent/fanin.go:69-84 | for every run, said of its steps: there is one call for each arrival, with what arrived; an inbox has accepted one letter for each send of a call that ended in it, in order, with that call's message; as many were consumed as its execution received |
| `FanIn.EveryCallEndsOnce` | examples/a2a-collaborate-agent/fanin.go:69-84 | a call whose message is in an inbox ended there, is in it once, and in no other |
| `FanIn.AcceptedCallIsInItsInbox` | examples/a2a-collaborate-agent/fanin.go:74-80 | a call that ended in an inbox has its message there |
| `FanIn.ReachableIffUndisturbed` | examples/a2a-collaborate-agent/fanin.go:53-64 | a running execution is reachable through its inbox exactly if no step of the run after the one that started it has started an execution of its task or finished another one of it |
| `FanIn.EveryExecutionWasStarted` | examples/a2a-collaborate-agent/agent.go:60-63 | every execution was started by a step of the run, which is the one the condition is about |
| `FanIn.OverlapUnregisters` | examples/a2a-collaborate-agent/agent.go:60-75 | a run in which the end of one execution makes another one of the same task unreachable |
| `FanIn.AloneIsReachable` | examples/a2a-collaborate-agent/agent.go:60-75 | if executions of one task never overlap, every running execution is reachable |
| `FanIn.LateLetterIsStranded` | examples/a2a-collaborate-agent/fanin.go:71-80 | a run in which a message is accepted into the inbox of an execution that has finished between lookup and send |
| `FanIn.ConsumableIffRunning` | examples/a2a-collaborate-agent/fanin.go:71-80 | a message that was accepted and not consumed yet can still be consumed in some continuation exactly if its inbox's execution is running |
| `FanIn.FinishedForGood` | examples/a2a-collaborate-agent/agent.go:60-75 | a finished execution consumes nothing any more, however the run goes on |
| `FanIn.ArrivalEndsInIff` | examples/a2a-collaborate-agent/fanin.go:69-84 | a call that arrives can end in the inbox of an execution exactly if its message is for the task and, at the lookup, the execution is running and left alone since it started |
| `GoRouting.RelayedRequestEndsInIff` | examples/a2a-collaborate/main.go:113-118 | a request that the relay sends on can end in the inbox of the execution of the announced task exactly if the relay had that task on record when it stamped the request and the execution is running and left alone; with no task on record it goes to the inner handler |
| `FanInServer.FanInHandler.RegisterInbox` | examples/a2a-collaborate-agent/fanin.go:53-57 | the register changes at the task's key only |
| `FanInServer.FanInHandler.DeregisterInbox` | examples/a2a-collaborate-agent/fanin.go:60-64 | the task's key is removed, whoever's inbox it held |
| `FanInServer.FanInHandler.SendMessage` | examples/a2a-collaborate-agent/fanin.go:69-84 | a call is delegated exactly if its task has no inbox; it is left waiting exactly if the inbox is full and its context live; otherwise it appends its message to that inbox or ends with its context; no other inbox changes |
| `FanInServer.FanInHandler.BeginExecution` | examples/a2a-collaborate-agent/agent.go:60-63 | starting an execution is the transition system's step: a new inbox, registered under the task |
| `FanInServer.FanInHandler.EndExecution` | examples/a2a-collaborate-agent/agent.go:64-64 | ending an execution is the step that takes out of the register whatever its task has there |
| `FanInServer.FanInHandler.ReceiveNext` | examples/a2a-collaborate-agent/agent.go:175-184 | taking a message is the step that consumes the oldest letter of the execution's inbox |
| `FanInServer.FanInHandler.LookUpInbox` | examples/a2a-collaborate-agent/fanin.go:71-73 | the lookup is the step that decides where a call goes |
| `FanInServer.FanInHandler.TrySend` | examples/a2a-collaborate-agent/fanin.go:74-79 | the send is the step that puts the call's letter into the inbox it found, registered or not any more, or ends the call, or leaves it waiting |
| `FanInServer.FanInHandler.Serve` | examples/a2a-collaborate-agent/fanin.go:69-84 | an uninterrupted call is its arrival, its lookup and its send in a row |
| `LlmLoop.HandleBlocks` | examples/a2a-collaborate-agent/agent.go:146-170 | the loop stops exactly if the consumer does not go on after one of the messages to be said, and that one is the last yielded; otherwise it yields the message of every respond block that has one, and collects the id of every tool-use block, whatever its name, in order |
| `LlmLoop.TakeRound` | examples/a2a-collaborate-agent/agent.go:144-206 | the loop ends with a reply exactly if the consumer stops, the inbox is closed, the context is done, or no tool was used and no message is there; otherwise the transcript grows by the reply, its results and at most one inbox message |
| `LlmLoop.RoundKeepsForm` | examples/a2a-collaborate-agent/agent.go:144-206 | a round keeps the transcript well-formed |
| `LlmLoop.RunLoop` | examples/a2a-collaborate-agent/agent.go:110-207 | the model is called in every round up to the first that ends the loop, and in no other; at every call each turn with a tool-use block is followed by one result for each of them, in order, and the transcript holds the first message and every inbox message once in order, and the replies in order; what is yielded is all that the rounds had to say, in the last of them as far as the consumer went on |
| `LlmLoop.WellFormedAnswers` | examples/a2a-collaborate-agent/agent.go:146-173 | in a well-formed transcript a turn of the model with at least one tool-use block is followed by results that list the ids of exactly these blocks, in order |
| `LlmLoop.GoesOnIff` | examples/a2a-collaborate-agent/agent.go:144-206 | the loop goes on after a round exactly if the model has replied, the consumer goes on after each message, the inbox is open, the context not done and, if no message is there, some block uses a tool |

## Left out

- The stream runtime, the A2A SDK and protobuf: pending inputs are delivered before a queue's shutdown, source names
  equal the agents' full names, and building an event's JSON form does not fail. An in-flight buffer between a relay
  queue and an executor's input queue is not a separate component; the two are one queue.
- Agent names are distinct, since the queues are kept by name. An executor's reaction to one input is one step; its
  events still reach the reader one by one.
- Generated message, task and context ids: a message that carries none gives a task with empty ids.
- Case folding and blanks beyond ASCII, reading an absent protobuf map key as inserting it, and floating-point rounding
  of the weights, which are exact reals here.
- Executors.RemediationPhases: confidence is compared as an exact number; the floating-point value of a printed decimal
  is not modelled.
- Native broadcast mode, transport-mode selection and context maps: their code is not part of this model.
- Clients that suspend between being handed a response and asking for the next one: over the group channel the response
  is relayed only when the caller asks on, and the example's client does so without suspending.
- Progress over infinite time: runs are finite here because they are proved to be; fairness is therefore not needed, and
  network delays are interleavings.
- GoRelay.RequestsArriveInOrder: the goroutines are atomic steps on values rather than an object with methods, since
  they run concurrently; shutdown, stream errors beyond the end of a reader, and a second task event are not modelled.
- The Go agent's rendering of messages, JSON decoding, logging, system prompt and the inner handler's other methods.
- FanInServer.FanInHandler.SendMessage: a call that finds its inbox full returns as blocked instead of being suspended; that it
  may go on later is in the steps of `FanIn`.
- GoProgress.MoreIsSentIff: leaves out agents whose reader is in the middle of a delivery behind a closed gate. Whether that
  reader gets through depends on how much room is left on its way and in which order others take it; what is proved of
  them is when they are stuck for good (`GoProgress.StuckForGood`) and that everything else goes on (`GoProgress.OpenRelayDrains`).
- GoProgress.WorkerGoesOnIff: the same exception, for a worker that waits for such an agent.
- Setup, cards, servers, argument parsing, terminal output and log colours.
