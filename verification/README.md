# freeacs-ng, verified

A Dafny model of freeacs-ng, a TR-069 auto-configuration server: a C front end that talks SCGI to a web server,
XML to devices and AMQP to a broker, and Python back ends that decide, over the same broker, what a device is sent.
`dafny verify dfyconfig.toml` checks the whole project.

## What is modelled

**The publishing pipeline** (`Pipeline.dfy`, `Provisioning.dfy`, `Consumers.dfy`). A back end hands over a list of messages. Each
message may need its exchange declared, its queue declared, and the two bound, with a broker reply after each step,
before it is published and the next one starts. Many lists are on their way over one channel at once, two of them
started by the channel itself, and messages are dictionaries shared by reference. `Pipeline` is the state machine on
values and holds the invariant; `Provisioning` is the class with its mutually recursive callbacks, each proved to do
what the state machine does. `Consumers` is about lists that stop at a message that starts consuming.

**The broadcast protocol** (`Fanout*.dfy`, `Descent.dfy`, `Actions.dfy`). All back ends read one fanout exchange and
may broadcast again what they read. Only an archive of ids in the message, and a ttl counter for connection requests,
keep this from going on for ever. `Fanout` has any number of back ends of the five kinds in the repository, deliveries
in any order, a delay queue that dead-letters to the broadcast exchange, and a document store that hands out any
document. A back end builds its message in one template dictionary and hands it over; it goes out later, with what the
template holds by then, and further calls may have written it in between. `FanoutArchive` and `FanoutDuplicates` prove
what archives look like; `FanoutTermination`, on top of an ordering in `Descent`, that the system always comes to rest;
`FanoutBroadcasts` and `FanoutExcess` count broadcasts, `FanoutAttempts`, `FanoutRequests` and `FanoutOverlap` calls to
devices, all on the bookkeeping in `FanoutAccounts`. The bounds hold for deliveries in any order; the runs that exceed
a count read every queue in order (`FanoutOrder`). `FanoutAnswers` says, field by field, who answers
what. `Actions` has the methods of the back ends, with the templates and
the archive list object that several dictionaries hold at once.

**The gate** (`Gate.dfy`). The checks that a back end makes before it acts are switched on in a dictionary that adds
every key it is asked for.

**The front end's connection** (`HeaderScan.dfy`, `Connection.dfy`, `Responses.dfy`). Parser callbacks fill a NUL-separated header
buffer and a body buffer, in pieces of any size; every read may or may not complete the body; one response has to come
of it, one notice to the back ends, and at most one action taken off the device's queue. `Responses` spells out which
request gets which output.

**Sessions** (`Session.dfy`, `ActionQueue.dfy`, `Cookies.dfy`). Many requests of many devices, the action queues, and the cookie that says how far a
device has come.

**AMQP** (`Reassembly.dfy`, `Amqp.dfy`). The loop that assembles a body from frames in a buffer in place, with a
`size_t` counter that wraps around, and the set-up and clean-up of a connection on every path. The broker has the
queues and a log of what was broadcast; connections call it.

**XML** (`XmlTree.dfy`, `XmlAnalyze.dfy`, `XmlCreate.dfy`). Classification of a document, its parameters, and the tree
that is grown for SetParameterValues, node by node, with libxml2's inheritance of namespaces.

**Key mapping** (`KeyMapping.dfy`). Dots in parameter names become stars in the database and dots again.

The network, the broker's answers, the XML and JSON parsers, the database's choice of a document and HTTP requests to
devices are parameters: every theorem holds for whatever they do.

## Properties that do not hold as one would expect

In each case the code is modelled as it is, and the exact condition is proved.

- *Messages go out in the order and with the content they were handed over* holds only while nobody writes a message
  dictionary that is still pending. Examples 1 and 2 build every message in one shared template, so a second device can
  overwrite the first one's message: `Pipeline.OverwrittenTemplate` gives the steps, from the opening of the channel on,
  and `Pipeline.WriteKeepsOrderIff` says after which writes a finished list has published what it was handed.
- *What successful fetches hand on is what has left the queue* fails when a fetch breaks off after the broker has taken
  the action off the queue, before or after its answer, because the get asks for no acknowledgement: `Session.LosingRun`
  is such a run. `Session.HandedOnIff` and, for a broker that breaks off but does not damage, `Session.NothingMissingIff`
  say exactly when it holds. Conservation does hold when such losses are counted.
- *One inform causes at most T(k) = 1 + k * T(k - 1) broadcasts when k back ends are missing from its archive* holds only
  as long as no action raises what a waiting list will cause, by writing its template. `FanoutBroadcasts.RaisesIff` says
  which writes do, `FanoutBroadcasts.BroadcastsCounted` counts them in, `FanoutExcess.ExactlyCounted` has the exact number
  for periodic inform back ends, and `FanoutExcess.MoreThanTree` is a run with T(4) + 3 broadcasts. That the system comes
  to rest holds nevertheless (`FanoutTermination.AlwaysStops`), with a bound that grows much faster.
- *A connection request leads to exactly ttl attempts when all fail* fails for a request without an archive: the retry
  copies the archive, raises an error without one, and never re-queues (`FanoutRequests.TriedOnce`,
  `FanoutRequests.AttemptsBounded`). The requests that the back ends make for an add object response always have one
  (`FanoutAttempts.RequestsHaveArchives`), but two of them can overlap in the one delay template: eleven attempts instead
  of ten for two responses (`FanoutOverlap.MoreThanFive`). `FanoutAttempts.AttemptsCounted` and
  `FanoutAttempts.FiveAttempts` have the exact counts, with what such writes change, and `FanoutAttempts.CountKeptIff`
  says when a write changes nothing.
- *Archives are free of duplicates* depends on the ids: example 2 appends its second id without a look at the archive.
  `FanoutDuplicates.DuplicatesIff` says for which configurations some run leaves a duplicate, and
  `FanoutDuplicates.HalvedIff` for which some run leaves the second id without the first.
- *The buffer holds the concatenation of the body frames* holds exactly when the only NULs in the body are at its end,
  because fragments are printed as strings: `Reassembly.ReassembledIff`.
- *Storing and reading back restores a document* holds exactly when no parameter name contains a star:
  `KeyMapping.RoundTripIff`.
- `xml_message_analyze` returns 0 on errors too, so its caller's 500 for a broken document (src/freeacs-ng.c:402-408) is
  never sent; such a document is classified as none and answered like any other. The model follows the code.
- Example 5 switches on a check for the type `connection_request`, which `on_message` does not have. The model of the gate
  has the checks that are made.

## Model

| member | source | states |
|---|---|---|
| Pipeline.PublishedInOrder | backend/pika/provisioning.py:216-400 | under every interleaving of broker replies, new lists, writes to unshared messages and reconnects, what a list has published followed by what it still has to publish is the enabled part of what was handed over; a list that ends without meeting a consumer has published all of it, once each, in order, unchanged |
| Pipeline.FinishesAfterItsCost | backend/pika/provisioning.py:216-294 | a list never gets more broker replies than 3, 1 or 0 per message, is used up only after exactly that many, is never left waiting after them, and only a consumer stops it short |
| Pipeline.SetUpBeforePublish | backend/pika/provisioning.py:216-288 | no publish outruns its set-up: the broker holds the exchange and the queue of every published message that asks for them, and the binding between them under its routing key when it asks for both |
| Pipeline.BroadcastExchangeDeclared | backend/pika/provisioning.py:154-183 | nothing is published on a channel before the consumer chain of that channel has declared the broadcast exchange and started to consume, after any number of reconnects to a broker that may have lost everything |
| Consumers.NothingBehindAConsumer | backend/pika/provisioning.py:281-288 | in every run, of a list with a message that starts consuming only what stands in front of that message goes out; a list that has stopped short has met one, and all in front of it is out |
| Pipeline.StepKeepsInv | backend/pika/provisioning.py:216-406 | the invariant behind these four is kept by each reply, hand-over, harmless write and reconnect, for all chains at once |
| Pipeline.SettleOrder | backend/pika/provisioning.py:389-400 | running through the messages that need no reply loses, repeats and reorders nothing |
| Pipeline.SettleCost | backend/pika/provisioning.py:389-400 | coming to rest at a request leaves exactly the replies that the remaining messages cost |
| Pipeline.CallbackOk | backend/pika/provisioning.py:234-288 | the callback of a reply keeps order, cost and set-up of its chain, and a chain that starts consuming has its exchange, queue and binding |
| Pipeline.WriteKeepsOrderIff | backend/pika/example_1_provisioning_periodic_inform.py:50-60 | after any run and a write, a list that then finishes has published what it was handed over if and only if it did not have the written message pending, or the write changes nothing, or the message is disabled before and after |
| Pipeline.OverwrittenTemplate | backend/pika/example_1_provisioning_periodic_inform.py:50-60 | from the opening of the channel on: a second device's message written into a shared template while the first is being set up goes out in place of the first one's, which is never published |
| Provisioning.Provisioning.SetupExchange | backend/pika/provisioning.py:216-232 | brings a chain to rest: everything in front of the first message with set-up is out, and the first request of that message is on its way |
| Provisioning.Provisioning.SetupQueue | backend/pika/provisioning.py:239-255 | asks for the queue, or goes on to binding and so, without a queue, releases the message |
| Provisioning.Provisioning.SetupBind | backend/pika/provisioning.py:262-279 | binds only when the message has exchange and queue, and releases it otherwise |
| Provisioning.Provisioning.Publish | backend/pika/provisioning.py:290-387 | publishes an enabled message, skips a disabled one, and brings the rest of the list to rest |
| Provisioning.Provisioning.Handle | backend/pika/provisioning.py:389-400 | drops the first message in place and brings the rest to rest; the recursion ends on messages left and stage |
| Provisioning.Provisioning.OnExchangeDeclareOk | backend/pika/provisioning.py:234-237 | goes on with the queue of the chain's first message |
| Provisioning.Provisioning.OnQueueDeclareOk | backend/pika/provisioning.py:257-260 | goes on with the binding |
| Provisioning.Provisioning.OnBindOk | backend/pika/provisioning.py:281-288 | a consumer starts consuming and never touches the rest of its list; any other message is published |
| Provisioning.Provisioning.OnReply | backend/pika/provisioning.py:216-288 | one broker reply is one step of the state machine, and no other chain changes |
| Provisioning.Provisioning.StartPublishing | backend/pika/provisioning.py:588-589 | handing over a list is one step of the state machine |
| Provisioning.Provisioning.OnChannelOpen | backend/pika/provisioning.py:175-183 | opening a channel drops all chains and starts those of consumer and publisher |
| FanoutTermination.AlwaysStops | backend/pika/example_1_provisioning_periodic_inform.py:22-61 | from every reachable state, with any number of back ends of all five kinds, at most `StepsLeft` further steps are possible without new input, whatever the order of deliveries, publishing and expiry, and whatever is written into templates while lists wait with them |
| FanoutTermination.InternalStep | backend/pika/example_1_provisioning_periodic_inform.py:22-61 | every delivery, publishing and expiry leaves fewer steps: it gives up a rank, and what it adds, or raises in a template, ranks below |
| FanoutTermination.WritesLower | backend/pika/example_4_add_object_and_set_parameters.py:25-128 | whatever a back end writes into its template is of a lower level than the message it reacts to: fewer back ends missing, or a smaller ttl, or no response any more |
| FanoutAnswers.LeftAlone | backend/pika/example_1_provisioning_periodic_inform.py:35-37 | whatever devices with credentials of their own send, and whatever back ends there are: in every run the only broadcasts are those of the front end, nothing is handed over, stored or delayed, and no device is called |
| FanoutAnswers.FirstAnswer | backend/pika/example_4_add_object_and_set_parameters.py:36-128 | every back end that takes informs answers the first one of a factory device: once its list goes out, its message with its ids is at the end of every queue, and the document is stored |
| FanoutAnswers.OneListEach | backend/pika/example_2_add_object.py:28-100 | in every run from any state a list has gone out or waits for each delivery that is answerable, by kind, archive, credentials, stored document and ttl, and for no other; and there is a call for each connection request that may still be tried, and no other |
| FanoutAnswers.GoesTo | backend/pika/example_5_connection_request.py:107-127 | retries go out into the delay queue, every other list, whatever expires there and whatever the front end sends to the end of every queue, whole and in order, with what the template holds by then |
| FanoutAnswers.ForeignArchive | backend/pika/example_1_provisioning_periodic_inform.py:20-37 | a run in which the message about one device goes out with the archive of another, which has credentials of its own and is ignored otherwise |
| FanoutBroadcasts.BroadcastsCounted | backend/pika/example_2_add_object.py:28-100 | from every reachable state and for every input: no more broadcasts than were still to come, plus the totals of the inputs, plus what writes to templates with waiting lists have changed |
| FanoutBroadcasts.RaisesIff | backend/pika/example_2_add_object.py:26-43 | a step adds to what is to come if and only if a list waits with the template that it writes and the new message can cause more broadcasts than the one it replaces |
| FanoutBroadcasts.BroadcastsBounded | backend/pika/example_2_add_object.py:28-43 | one input into a system at rest causes no more broadcasts than a total in the back ends missing from its archive, its ttl and its kind, in every run without such a step |
| FanoutBroadcasts.InformBroadcastsBounded | backend/pika/example_1_provisioning_periodic_inform.py:22-61 | for an inform with k back ends missing that bound is T(k) = 1 + k * T(k - 1) |
| FanoutExcess.ExactlyCounted | backend/pika/example_1_provisioning_periodic_inform.py:18-61 | with n periodic inform back ends and nothing let slip, one inform causes exactly T(n) broadcasts plus what writes to waiting templates have changed; so T(n) is kept if and only if that is not positive |
| FanoutExcess.OrderlyRun | backend/pika/example_1_provisioning_periodic_inform.py:18-61 | the number is reached: publishing before the next delivery and reading every queue in order, a run to rest makes all the broadcasts that are to come |
| FanoutExcess.MoreThanTree | backend/pika/example_1_provisioning_periodic_inform.py:20-61 | with four of them, a run in which every queue is read in order and one inform causes T(4) + 3 broadcasts |
| FanoutBroadcasts.ReactionShare | backend/pika/example_4_add_object_and_set_parameters.py:25-128 | what a back end hands over for one delivery is worth no more than its share in the total of the broadcast, at that moment |
| FanoutAccounts.StepAccount | backend/pika/example_1_provisioning_periodic_inform.py:20-61 | the account of any step to the last message: what a delivery gives up, what it hands over, what an input brings, what is broadcast, and what lists waiting with a template that is written are worth from then on |
| FanoutAccounts.CopiesWorth | backend/pika/example_1_provisioning_periodic_inform.py:61-61 | the copies that a fanout exchange makes share the worth of their broadcast among them |
| FanoutArchive.ArchivesWellFormed | backend/pika/example_4_add_object_and_set_parameters.py:25-110 | with distinct ids, in every run every archive in flight, delayed, stored or in a template is free of duplicates and holds a back end's add object id whenever it holds its set parameter values id |
| FanoutDuplicates.DuplicatesIff | backend/pika/example_2_add_object.py:28-87 | some run leaves an id twice in an archive in flight if and only if a back end uses one id for both phases, or the set parameter values id of a back end with relay messages can come to it without its rival's or its own first id |
| FanoutDuplicates.HalvedIff | backend/pika/example_2_add_object.py:42-75 | some run leaves a set parameter values id without its add object id if and only if some back end contributes it so |
| FanoutDuplicates.NeverDuplicated | backend/pika/example_4_add_object_and_set_parameters.py:25-110 | for all other configurations no archive in flight, delayed, stored or in a template ever holds a duplicate |
| FanoutDuplicates.ShippedClean | backend/pika/example_2_add_object.py:28-43 | the examples side by side, with the ids they are shipped with, leave no duplicate in any run |
| FanoutDuplicates.DuplicatingRun | backend/pika/example_2_add_object.py:42-75 | the run that leaves the duplicate, for every such configuration |
| FanoutDuplicates.ArchivesAreContributions | backend/pika/example_4_add_object_and_set_parameters.py:49-75 | in every run, whatever the ids, each archive is a sequence of whole contributions of back ends, and a document that a two-phase back end stores ends with its first half |
| FanoutArchive.ReactionExtends | backend/pika/example_2_add_object.py:28-89 | in one reaction, what is written into the template extends the archive of the message, or of the stored document, it is made from, and holds the id of the back end; what is stored extends the archive of the message; a retry keeps its archive |
| FanoutAttempts.AttemptsCounted | backend/pika/example_5_connection_request.py:21-127 | from every reachable state and for every input, responses included, with any number of back ends of each kind: no more attempts than were still possible, plus what the inputs bring in, plus what writes to templates with waiting lists have changed, and exactly that many when every attempt fails and responses find their relay messages |
| FanoutAttempts.CountKeptIff | backend/pika/example_5_connection_request.py:71-82 | when nothing is let slip, a reaction keeps the count if and only if no list waits with its template or what it writes is good for as many attempts as what was there |
| FanoutAttempts.SpendingRun | backend/pika/example_5_connection_request.py:45-82 | that number is reached: from every such world in which relay messages are stored there is a run to rest that makes all the attempts |
| FanoutAttempts.FiveAttempts | backend/pika/example_2_add_object.py:78-87 | with one back end that calls devices and whatever the front end sends: at most five attempts for each successful response and each back end that sends on its relay messages, plus what overlapping retries change; when all fail exactly five if and only if they change nothing; and nothing when no delay template is written while a retry waits |
| FanoutOverlap.MoreThanFive | backend/pika/example_5_connection_request.py:71-82 | a run of two responses with eleven attempts, with every queue read in order: the second request fails while a retry of the first waits in the delay template |
| FanoutAttempts.RequestsHaveArchives | backend/pika/example_5_connection_request.py:71-82 | in every run on inputs of the front end, whatever carries a ttl carries the archive that a retry needs |
| FanoutRequests.AttemptsBounded | backend/pika/example_5_connection_request.py:21-82 | a connection request from elsewhere with ttl t causes at most t attempts in every run, and exactly t when all fail if and only if it has an archive or t is at most 1; its retries never overlap |
| FanoutRequests.TriedOnce | backend/pika/example_5_connection_request.py:71-74 | a run in which a request without an archive and with a ttl above 1 is tried once only |
| FanoutAttempts.TriesStep | backend/pika/example_5_connection_request.py:71-82 | attempts made plus attempts still possible change by what an input brings in and what is written into templates of waiting lists; beyond that they never grow, through delay queue, broadcast exchange and relay messages, and stay the same while nothing is let slip |
| Actions.TimeProvisioning.Action | backend/pika/example_1_provisioning_periodic_inform.py:18-61 | leaves in its shared template, also when there is no broadcast, and hands over of it, what the protocol says |
| Actions.WifiRelay.Action | backend/pika/example_2_add_object.py:24-100 | the same, with one list object in document and template: the template holds both ids, the two relay messages one and both, and for a device with its own credentials the first id only |
| Actions.WifiRelay.RelayCopies | backend/pika/example_2_add_object.py:74-82 | the copy made before the second append lacks the second id, the copy made after has it |
| Actions.WifiTwoPhase.Action | backend/pika/example_4_add_object_and_set_parameters.py:23-128 | both phases, on template and stored archive, also when the insert fails after the template has been written |
| Actions.ConnectionRequestProvisioning.Action | backend/pika/example_5_connection_request.py:19-82 | one attempt at most, and the delay template written and handed over, with ttl less one, only after a failure and with an archive |
| Gate.ReadIsLookup | backend/pika/provisioning.py:21-30 | reading from the self-populating dictionary gives what plain lookup gives |
| Gate.ReadKeepsFlags | backend/pika/provisioning.py:21-30 | reading along one path changes no flag on any path, although it may add entries |
| Gate.HttpSwitches | backend/pika/provisioning.py:435-479 | the entries that switch the checks on address, user name, password and cookie level on |
| Gate.CwmpSwitches | backend/pika/provisioning.py:481-530 | those for the type of a message, its id, instance number, status and events |
| Gate.DeviceSwitches | backend/pika/provisioning.py:532-560 | those for the parameters that identify a device |
| Gate.RequestSwitches | backend/pika/provisioning.py:562-583 | those for the parameters of a connection request |
| Gate.InputVerification.OnMessage | backend/pika/provisioning.py:423-583 | the action runs if and only if the body parses and every check that is switched on passes, and the switches stay as they were |
| Gate.InputVerification.OnMessages | backend/pika/provisioning.py:423-583 | over any sequence of messages the gate stays the same function of the body |
| HeaderScan.Scan | src/freeacs-ng.c:196-286 | the scan over the encoding of any NUL-free pairs ends and leaves every kept header equal to the first value under its name |
| HeaderScan.PairAt | src/freeacs-ng.c:196-210 | after i pairs the scan stands at the i-th pair of the buffer and the two searches for NUL find its two ends |
| HeaderScan.ApprovedIff | src/freeacs-ng.c:275-292 | a head is approved if and only if the three mandatory names occur in it |
| HeaderScan.HeadersSay | src/freeacs-ng.c:212-271 | each of the five headers has a value if and only if the first pair of its name, as the protocol spells it, has that value |
| HeaderScan.OtherPairs | src/freeacs-ng.c:223-243 | no pair of another name changes the credentials or the cookie, wherever it stands |
| Connection.Arrives | src/freeacs-ng.c:155-182 | names and values fed to the callbacks one after the other, then the body, deliver any request |
| Connection.Serve | src/freeacs-ng.c:570-618 | however a well-formed request is cut into reads and pieces: one status line, the response for its headers and body, the same headers and message, one notice to the back ends or none, and the queues as one answer leaves them |
| Connection.Connection.ReadCb | src/freeacs-ng.c:570-618 | a read keeps the connection in step with what has been delivered, and after the last of the body the response is out |
| Connection.Connection.CheckComplete | src/freeacs-ng.c:601-610 | the test at the end of a read answers a complete body once; on an answered connection, an empty body included, it writes nothing |
| Connection.Connection.FinishHead | src/freeacs-ng.c:185-304 | keeps the first value of each header, and approves the head or answers it with 500 |
| Connection.Connection.FinishBody | src/freeacs-ng.c:316-341 | takes the body up to its first NUL as the message, answers it the first time and never again |
| Connection.Connection.SendResponse | src/freeacs-ng.c:343-568 | writes the response that headers, message, credentials and queue call for, notifies the back ends of an authorized POST, takes an action off the queue only where the protocol fetches one, and sets the finished bit although the analysis overwrites the tag |
| Connection.Connection.SendAction | src/freeacs-ng.c:477-553 | takes at most the first action off the queue of the device and sends its conversion, or 204 when there is none, or 500 |
| Connection.InformAnswered | src/freeacs-ng.c:440-450 | InformResponse is the answer if and only if an authorized POST with a body has an Inform of a known version in its SOAP Body, whatever cookie and queue hold |
| Connection.OneStatusLine | src/freeacs-ng.c:440-557 | every response has one status line, and it comes first |
| Responses.NumbersAreRead | src/freeacs-ng.c:402-403 | the content length is the number that the header says in decimal, after white space and sign, up to the first other character |
| Responses.AnsweredAtOnce | src/freeacs-ng.c:358-371 | which output, with which status, cookie and body, goes out when no action is asked for: 401, 500, the inform response with level=0, the initial provisioning with level=1, or 204; and no queue changes |
| Responses.AskedInVain | src/freeacs-ng.c:477-512 | an authorized POST that is empty or holds a SetParameterValuesResponse, when no action comes: 204 for an empty queue or none, 500 when the broker fails, and whether the action is lost then |
| Responses.ActionTaken | src/freeacs-ng.c:514-553 | when one comes: the pieces that are written for its conversion, with or without a cookie, and that it is gone from the queue, which is that of the address if so configured |
| Responses.OnlyWhenAsked | src/freeacs-ng.c:477-479 | a queue changes or an RPC is sent only for such a request, and the queues of others stay as they are |
| Responses.GetsTheFirst | src/freeacs-ng.c:477-553 | with an undamaging broker and an action that converts, the first action is sent and leaves the queue if and only if the request is one for an action |
| Session.Conservation | src/freeacs-ng.c:477-553 | over any sequence of requests and hand-overs, for every queue: what was in it and what was put into it is, in order, what requests removed followed by what is left |
| Session.ServeTurn | src/freeacs-ng.c:343-568 | a step of the many-request model is what a connection does with the broker that serves the request, in whatever reads; the session below is about what it has written; and the back ends hear of every authorized POST, with cookie, credentials, address and document |
| Session.HandedOnIff | src/amqp.c:155-262 | in every run, what was in a queue and put into it is what successful fetches handed on followed by what is left if and only if every fetch got the whole of the action it took off the queue |
| Session.NothingMissingIff | src/amqp.c:155-262 | with a broker that may break off but does not damage: if and only if no fetch on the queue broke off after the broker had taken the action off, with or without an answer |
| Session.LosingRun | src/amqp.c:182-206 | a run in which an action is put into a queue and afterwards is neither there nor handed on |
| Session.SentAreHandedOn | src/freeacs-ng.c:507-553 | in every run, all RPCs that devices of a queue are sent, picked out by what is sent alone, are conversions of a subsequence of the actions handed on, in order |
| Session.RpcIsTheActionTaken | src/freeacs-ng.c:495-553 | in every run an RPC is sent only by a request that took an action off its queue, and is the conversion of the text received of it |
| ActionQueue.SentInOrder | src/freeacs-ng.c:477-553 | over any events, with a broker that does not fail the queue and actions that convert: the RPCs sent are those of the actions that have left the queue, all of them, in order, one for each request as long as there are any |
| ActionQueue.AllActionsSent | src/freeacs-ng.c:477-553 | k requests, each empty or answering an RPC with SetParameterValuesResponse, are sent all k queued actions in order |
| ActionQueue.UntilNoContent | src/freeacs-ng.c:507-512 | a device that asks until it gets 204 has been sent everything that was queued, in the meantime too |
| Cookies.LevelsWritten | src/freeacs-ng.c:440-475 | the cookie that a device sends after an inform is the level=0 that was written to it, and after the initial provisioning level=1 |
| Cookies.ProvisionedOncePerInform | src/freeacs-ng.c:440-475 | in a session that sends back the last cookie written, between two initial provisionings level=0 has been written, for an inform or an action in which a back end sets it itself |
| Cookies.NoFetchBeforeProvisioning | src/freeacs-ng.c:463-479 | with factory credentials no action leaves any queue between an inform and the initial provisioning, that request included |
| Cookies.ProvisioningComes | src/freeacs-ng.c:463-475 | and the initial provisioning is what the first POST after the inform that is no inform itself gets, with level=1 |
| Reassembly.ReceiveBody | src/amqp.c:208-262 | for a body whose fragments sum to the announced size the loop ends at its last frame with the fragments' texts in the buffer and NULs behind them; it never writes outside the buffer, and a counter that wraps around is accounted for |
| Reassembly.TakeFragment | src/amqp.c:234-261 | one fragment, on the fast or the slow path, keeps bytes received plus bytes missing equal to the announced size, or ends the loop with the whole body |
| Reassembly.WhereItEnds | src/amqp.c:217-262 | for any frames the loop ends after body frames that are accounted for, up to a wrapped counter, or at the first other frame, or with the frames |
| Reassembly.WhatIsRead | src/amqp.c:234-261 | for any frames, a fragment of the announced size ends the loop and takes the place of all before it; without one the front of all texts is read |
| Reassembly.AssembledComplete | src/amqp.c:217-262 | what the loop does on any frames is, on a complete body, the texts of its fragments |
| Reassembly.ReassembledIff | src/amqp.c:234-261 | the buffer ends up with the concatenation of the fragments if and only if the only NULs in it come last |
| Reassembly.UniqueGoal | src/amqp.c:217-262 | frames complete a body at one point only |
| Amqp.Broker.FetchPending | src/amqp.c:100-270 | which answer comes of which broker behaviour, what the queue then holds, also when the reply to the get breaks off, and that the connection is taken down on every path |
| Amqp.Broker.Notify | src/amqp.c:25-98 | 0 is returned if and only if the message was sent to the broadcast exchange, and the connection is taken down on every path |
| Amqp.DeliversAction | src/amqp.c:208-262 | an undamaged body is never lost, and without NULs it reads as the action that was queued |
| XmlTree.BodyMembers | src/xml.c:80-80 | the query for RPCs selects the children of every soap_env:Body in a soap_env:Envelope, and nothing else |
| XmlTree.ContentIsAllText | src/xml.c:236-236 | the content of an element is all text in it and below it, in document order |
| XmlAnalyze.Analyze | src/xml.c:24-380 | overwrites the tag with the classification of the document, and adds no id for a document without an RPC although a left-over query is evaluated |
| XmlAnalyze.SingleRpc | src/xml.c:79-220 | one RPC of the three names in the Body, whatever else is in there, ends in exactly one version bit and one type bit, its own |
| XmlAnalyze.SingleRpcJson | src/xml.c:223-374 | and in an object of its type, spelled as the back ends expect it, with the last ID of its version, and with parameters exactly for an inform |
| XmlAnalyze.UnknownIff | src/xml.c:371-371 | a document is unknown, and nothing else, if and only if no element of the three names stands in its SOAP Body; a document that cannot be read has the bit of none; no document touches the bits of the request |
| XmlAnalyze.TypeBits | src/xml.c:79-220 | a type bit is set if and only if an element Inform, SetParameterValuesResponse or AddObjectResponse, as the bit says, of any version stands in the SOAP Body |
| XmlAnalyze.VersionBits | src/xml.c:79-220 | a version bit is set if and only if one of the three stands there in that version |
| XmlAnalyze.JsonSays | src/xml.c:242-369 | the type entry of any document is that of an add object response in the Body, else of a parameter response, else of an inform, and there are parameters exactly for an inform |
| XmlAnalyze.IdSays | src/xml.c:223-240 | the id is the last ID element of the highest version in the Body |
| XmlAnalyze.NamesIff | src/xml.c:263-285 | the walk finds a Name, with its next sibling, if and only if it stands in a struct in a parameter list somewhere |
| XmlCreate.CreateSetParameterValues | src/xml.c:469-521 | the tree that is grown node by node is the message that TR-069 asks for |
| XmlCreate.RoundTrip | src/xml.c:263-285 | read with the walk that reads an inform, that message gives the map it was written for |
| XmlCreate.IdReadsBack | src/xml.c:446-468 | read with the query for the id, it gives the id it was given |
| XmlCreate.SpelledOut | src/xml.c:469-518 | the one RPC in its Body, its list, key and structs, with their names |
| XmlCreate.RpcIsWellFormed | src/xml.c:469-518 | below the RPC element nothing has a namespace, despite inheritance, and the arrayType count is the number of structs |
| KeyMapping.RoundTripIff | backend/pika/database_mongodb.py:24-30 | storing and reading back restores the parameters if and only if no name contains a star, in whatever order the loops go |
| KeyMapping.StoredKeys | backend/pika/database_mongodb.py:117-119 | stored names contain no dot; without stars no two collide, and size and values are kept |
| KeyMapping.ReplaceKeys | backend/pika/database_mongodb.py:24-30 | the loop, in any order, files every value under its renamed key and nothing else |
| KeyMapping.DatabaseMongoDB.Insert | backend/pika/database_mongodb.py:109-137 | adds one document, renamed, and leaves all others |
| KeyMapping.DatabaseMongoDB.FindOne | backend/pika/database_mongodb.py:139-162 | whichever document comes back, it is the one that was inserted, provided its names contain no star |

## Left out

- Connection.Serve: the request has to be well formed, without NULs in headers or body and with a body of the announced length; what becomes of others is stated only callback by callback.
- Connection.Connection.SendResponse: memory failures.
- XmlAnalyze.Analyze: every Name in the parameter list of an inform must have an element after it; without one the code reads from a null pointer. Event codes, status and instance number are not extracted.
- Amqp.Broker.FetchPending: the announced size is below the largest `size_t`, and fragments are shorter than that; a print that fails is not modelled.
- Reassembly.ReceiveBody: a frame of more than INT_MAX bytes, whose length the code casts to int.
- XmlCreate.CreateSetParameterValues: text is taken as it is, although libxml2 expects `&` in it to be escaped.
- FanoutRequests.AttemptsBounded: one back end that calls devices, and a system at rest; AttemptsCounted has neither restriction.
- FanoutArchive.ArchivesWellFormed: ids must be distinct; FanoutDuplicates has the exact conditions.
- FanoutBroadcasts.BroadcastsBounded: the total is reached for periodic inform back ends (OrderlyRun); for other kinds it is a bound only.
- Actions.TimeProvisioning.Action: data without http or cwmp object raises an error; that counts as not getting through the checks, and data without the parameters as a call that does not get to its end. The same goes for the other methods.
- KeyMapping.DatabaseMongoDB.Insert: the time stamp and the id that a stored document gains, and the empty parameters that looking for them adds to a self-populating dictionary.
- KeyMapping.DatabaseMongoDB.FindOne: the selector, which the code does not pass on.
- Gate.InputVerification.OnMessage: what each check looks at in the body is a predicate; the credentials and the cookie level that some checks write into the message are part of what `Fanout` takes as given.
- Session.ServeTurn: requests are answered one after the other, as the single-threaded front end does; what happens to the queues between the reads of one request counts as before or after it.
- Cookies.ProvisionedOncePerInform: a back end that sets level=0 starts the session over, as the theorem says.
- Tags are sets of bits rather than integers; the header file gives every bit a value of its own.
- In the broadcast protocol a list goes out in one step, after its broker replies, which are steps of the pipeline; lists and deliveries may overtake each other, more freely than queues let them. The theorems about all runs hold for the ordered ones among them, and the runs with too many broadcasts or attempts are ordered.
- Expiry of queues and messages, auto-delete, exclusive queues, and other properties of declarations and messages; refused declarations close the channel and are reconnects here.
- The replacement of `.{i}.` in stored relay messages by example 3, which is text replacement on JSON.
- The external messages that the examples build, which go to device queues; the session model takes any text as an action.
- Connecting, retrying and shutting down in the back ends, `write_cb` and the release of connections, the SCGI parser and its errors, configuration, logging.
- The writers for AddObject and Download, and messages without a recognised action.
- `atoi` on numbers that do not fit into an int, and the contiguity of what `evbuffer_peek` returns.
