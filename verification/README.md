# A verified model of the Kii thing-if ThingSDK

The SDK lets a device onboard to a cloud service, receive commands as JSON push messages, report the
results of their actions, and report the device's state periodically. This project models its core,
`kii_thing_if.c`, and the shared state of its two sample devices, and proves what the code keeps over
every message, every buffer size and every run.

## What is modelled

**The command dispatcher** (`Scanner`, `ScannerFacts`, `Tokens`, `Fields`, `Walk`, `Placement`,
`Dispatcher`, `CommandFacts`, `Routes`, `Printing`, `Results`, `Examples`). A push message holds a list of aliases,
each with a list of actions. The code walks both lists by index, parses the same buffer again from its
start for every index, writes terminators into that buffer around each handler call, puts the bytes
back, and streams the results into a bounded request body. `Dispatcher` has it in that form: methods with
nested loops over an `array<char>` and a request object. `Walk` tells the same as one pass over the parsed
message, which parses nothing twice and writes nothing. Every method is proved equal to that pass for
every payload, well formed or not, every handler, every network and every buffer size, and `CommandFacts`
proves what a reader wants to know of the pass: which calls are made and in what order, exactly when
results are sent, that what is sent is never cut off, exactly when a receiver reads in it what was meant,
and exactly when the message is whole again.

**The life of an instance** (`Lifecycle`, `LifecycleFacts`, `RunningTasks`, `Bodies`, `Updater`). Initialisation, onboarding,
start, and the reading and writing of the thing's firmware version and type, as a class whose methods
state their requests event by event; the periodic updater; and what holds after every sequence of calls of
the state and of the credentials, which are kept twice, and of the requests of tasks that go on while the credentials
change.

**Two tasks** (`TwoInstances`, `Reactive`, `TwoTasks`). The command task and the updater task each build requests in a
buffer of their own, on one memory, in any interleaving of their steps. Each decides what to do next by what came of what
it did.

**The shared device record** (`SharedRecord`, `SharedSamples`, `SmartLight`, `AirConditioner`). Two tasks copy a record
field by field under a lock; every copied field is a step of its own. The sample devices' action handlers and state
printers are classes over their fields.

**Paths** (`Paths`). The builders that write resource paths into fixed buffers.

`Basics`, `Decimal` and `Api` hold the shared vocabulary: spans and C strings, printed numbers, and one `kii_t`
instance with the request under construction and its log.

## How to read the results

The main results, and the statement each one is connected to:

- `Dispatcher.HandleMessage` is connected to the one-pass specification `Walk.Handle`; the lemmas of `CommandFacts` are
  about that specification.
- `CommandFacts.MessageTrace` tells the whole effect of a message from its parsed lists, the handler's replies and the
  room, without the walk: `Reached` lists the actions that can be reached and the trouble met there.
- `CommandFacts.ReceiverReadsResults` connects what is printed with an independent reader, `Results.Decode`, in both
  directions.
- `Routes` reads the paths of all requests as a server does, with the literal texts of the interface.
- `Bodies.ObjectReads`, `SmartLight.StateRoundTrip` and `AirConditioner.ConditionerRoundTrip` connect printers with readers.
- `LifecycleFacts` connects the stored credentials with a definition on the calls alone, `LatestCommit`.
- `SharedRecord.ReportsAreAtomic` connects field-by-field copying with actions applied to whole records.
- `TwoTasks.TasksUndisturbed` connects tasks that react, under any schedule on one memory, with the sequential
  specifications `Walk.Handle` and `Updater.RoundsLog`.

## Where expectations fail

The model follows the code. Each of these has its exact condition, and an input at which it fails where one is needed to
see it.

| expectation | exact condition | input |
|---|---|---|
| results are a well-formed list (`kii_thing_if.c:825`) | `CommandFacts.CommaTest`, `CommandFacts.ReceiverReadsResults` | `Examples.LeadingComma` |
| the message is restored (`kii_thing_if.c:811`, `kii_thing_if.c:847`) | `CommandFacts.MessageRestored` | `Examples.LeftoverTerminators`, `Examples.UnreadableAction` |
| an accepted results path fits its buffer: the guard counts one character less than is written (`kii_thing_if.c:724` against `kii_thing_if.c:740-741`) | `Paths.ResultsPathFits` | `Paths.ResultsPathOneShort` |
| only started requests are run: onboarding with a thing's identifier goes on after a failed start (`kii_thing_if.c:1177-1181`), with a vendor's it does not | `Lifecycle.UnstartedRun` | `Lifecycle.UnstartedRunHappens` |
| both copies of the credentials are equal while onboarded (`kii_thing_if.c:960-975`) | `LifecycleFacts.AgreementExact` | `LifecycleFacts.FailedAttemptSplitsCopies` |
| path and token of a state request belong together: the path is computed once (`kii_thing_if.c:1056-1060`), and onboarding again is not refused | `RunningTasks.RequestBelongs` | `RunningTasks.RequestMixes` |
| `start` moves the instance to the started state, as `include/kii_thing_if.h:376-377` says; it does not (`kii_thing_if.c:1283-1299`) | `LifecycleFacts.StateChanges`: no run does | `LifecycleFacts.StartsRepeat` |
| the air conditioner is set to the given number; it reads the action's name (`linux-sample/example.c:79`) | `AirConditioner.PresetTemperature` | every number but zero |

Two more differences between code and documentation are followed without a result of their own. An optional text that is
empty is sent as an empty string (`kii_thing_if.c:139-149`), although `include/kii_thing_if.h:397-411` calls it ignored; only a
missing one is left out. The smart light refuses an action only when both its schema and its version are wrong
(`cc3200-sample/freertos_thingsdk_demo/main.c:710`), and its handler takes a schema and a version where the SDK's callback
type takes an alias (`include/kii_thing_if.h:93-97`).

## Assumptions about libraries that are not part of this model

The SDK calls libraries whose code is not part of the repository. The model gives them small concrete definitions:

- JSON scanner (`Scanner`, `Tokens`): strings, arrays and objects follow RFC 8259, sections 7, 5 and 4; a primitive is any
  run of characters that are neither delimiters nor control characters; a parse fails when the text has anything after its
  value or needs more tokens than the array has; spans exclude their end, and a string's span excludes its quotes. A parse
  overwrites the token array from its front and leaves older tokens behind its own.
- JSON reader (`Fields`): a field is found when it is there with the asked type; a field that is not found has the span
  from 0 to 0; escapes are not decoded.
- Requests (`Api`): a start fails or leaves room for a body of some size; a failed start changes nothing; an append fails
  exactly when its text does not fit, and then changes nothing; a run fails or brings back a status and a body. Request and
  answer share one buffer: after a run there is some text of the body's length in the body's place, which later appends
  without a start build on. What the network does is any function of what was asked of it so far.
- Action handlers, state handlers and custom push handlers are any functions: a handler's reply may depend on all calls made
  so far, and the chunks that a state handler writes on all requests made so far. A state handler gives up at the first chunk
  that does not fit.

A `char` stands for a byte.

## Model

| member | source | states |
|---|---|---|
| ScannerFacts.DocumentLocal | kii_thing_if.c:649-662 | parsing a window of the buffer depends on the characters of the window only |
| ScannerFacts.ContainerIsDocument | kii_thing_if.c:655-662 | an array or object that was found inside a larger text parses again, to the same value, from its own window |
| Tokens.CountIsLength | kii_thing_if.c:547-554 | the number of tokens that a value needs does not depend on where the text it was parsed in starts |
| Tokens.ArrayTokens | kii_thing_if.c:556-563 | after the parse of a non-empty list the second token is the list's first element, which is what the key test reads next for an object without keys |
| Tokens.StringThenMore | kii_thing_if.c:556-567 | in a list that starts with a string the third token is the second element |
| Tokens.ObjectTokens | kii_thing_if.c:556-567 | the second and third token of an object are its first key and that key's value |
| Fields.IndexPathRoundTrip | kii_thing_if.c:647 | the path written for an index is read back as that index |
| Fields.IndexPathInjective | kii_thing_if.c:647 | different indices have different paths |
| Fields.IndexPathWidth | kii_thing_if.c:640-647 | an index path takes, terminated, the digits and four characters, and smaller indices never take more |
| Api.KeyValueExact | kii_thing_if.c:78-128 | a key with its value goes into a request completely, with comma and quotes, or the request is given up, and it goes in exactly when it fits as a whole |
| Api.ChunksExact | kii_thing_if.c:587-594 | the same for any number of chunks that a state handler writes |
| Api.Kii.Append | kii_thing_if.c:26-27 | the assumed append: fails exactly when the text does not fit, and then leaves the body as it was |
| Api.Kii.AppendKeyValue | kii_thing_if.c:78-128 | key and value through the appends, for missing keys and values too |
| Api.Kii.AppendString | kii_thing_if.c:130-137 | a quoted value; a missing one is an error |
| Api.Kii.AppendOptional | kii_thing_if.c:139-161 | a missing value is success and writes nothing |
| Api.Kii.AppendBool | kii_thing_if.c:163-175 | a flag, unquoted |
| Api.Kii.WriteChunks | kii_thing_if.c:587-594 | a state handler's chunks, up to the first that does not fit |
| Walk.EntryExact | kii_thing_if.c:831-844 | one action's result goes into the body completely or the walk ends there, exactly by whether it fits |
| Placement.ItemPlaced | kii_thing_if.c:532-585 | key and value of a found item lie in the list's window, in this order, apart from each other, and hold no NUL |
| Placement.SameWindow | kii_thing_if.c:798-806 | a list reads the same from a buffer that was changed outside the list's window |
| Placement.CallSeesTexts | kii_thing_if.c:788-823 | during a handler call the message differs from what was received in exactly three places, and the three C strings that the handler gets are exactly alias, name and value |
| Placement.ActionIsStrings | kii_thing_if.c:817-823 | what a handler is told are the C strings that stand at alias, name and value while it is called |
| Dispatcher.KeyAndValueOfObject | kii_thing_if.c:532-585 | first key and value of the object in a window; for an object without keys, whether and where a key and a value are seen is what the older tokens say |
| Dispatcher.KeyAndValueAtIndex | kii_thing_if.c:629-676 | the item at an index by two fresh parses is the item that the single pass sees there, for every list and index except an object without keys in a list that starts with a string, whose answer is stated too |
| Dispatcher.AppendEntry | kii_thing_if.c:831-848 | streaming one result, append by append, is the specified result |
| Dispatcher.PerformAction | kii_thing_if.c:812-852 | one action: the handler is told the C strings that stand at alias, name and value then; what the body becomes; and that name and value ends are restored exactly when the result fits |
| Dispatcher.DispatchActions | kii_thing_if.c:791-862 | the inner loop ends, and is the single pass over the alias's list; only the alias's terminator is left when it finishes |
| Dispatcher.DispatchAliases | kii_thing_if.c:761-876 | the outer loop ends, and is the single pass over the aliases; the message is whole again before every alias and when it completes |
| Dispatcher.SendState | kii_thing_if.c:596-627 | the state is sent with all chunks or not at all; success is exactly a run that was answered |
| Dispatcher.HandleActions | kii_thing_if.c:745-892 | requests, calls and message of an accepted command are those of the single pass |
| Dispatcher.HandleMessage | kii_thing_if.c:678-892 | for every payload the log of requests, the handler calls and the final message are those of the single pass, and every call was told the C strings that stood at its alias, its name and its value when it was made |
| Dispatcher.ReceivedCallback | kii_thing_if.c:894-904 | a message that the custom handler takes causes no call and no request; any other is handled, with what its calls were told |
| CommandFacts.WalkActionsExact | kii_thing_if.c:791-862 | from any index: when the texts of the remaining results fit, all calls are made, the body grows by exactly these texts and the walk finishes exactly when the list ends well; otherwise it stops at the first result that does not fit |
| CommandFacts.WalkAliasesExact | kii_thing_if.c:761-876 | the same for the aliases: each of the four endings, with its calls, has its condition on the parsed lists, the replies and the room |
| CommandFacts.StateRequest | kii_thing_if.c:596-627 | which requests sending the state adds: none for a path that is too long, a failed start, a start for a state that does not fit, or a start and a run of the whole state |
| Routes.StateRoute | kii_thing_if.c:292-317 | a server reads in the state path the application, the thing and the states, for identifiers without a slash |
| Routes.StateGoesToThing | kii_thing_if.c:596-627 | sending the state is nothing for a path of 256 characters or more, and otherwise one PUT of that content type to that path |
| Routes.ResultsRoute | kii_thing_if.c:734-742 | a server reads in the results path the application, the thing and the whole command identifier |
| Routes.CommandAcceptedExactly | kii_thing_if.c:694-732 | a message is accepted exactly when it is an object with a string commandID whose path has at most 256 characters; the identifier is the whole text between the quotes, and the list is the array actions, if there is one |
| Routes.ResultsGoToCommand | kii_thing_if.c:745-749 | a message causes no request exactly when it is not accepted, and otherwise first a PUT of JSON to its results path |
| CommandFacts.MessageTrace | kii_thing_if.c:678-892 | the whole effect of every message: the calls are the reachable actions in document order, all of them or up to the first whose result does not fit; the results are run exactly when every list can be walked and the whole body fits, and what is run is that body; the state follows exactly answered results; which request is made in every other case; and what is left of the message |
| CommandFacts.WellFormedListed | kii_thing_if.c:761-876 | in a well-formed command every element of every list is reached once, in order, and there is no trouble |
| CommandFacts.WellFormedHandled | kii_thing_if.c:678-892 | a well-formed command has exactly these calls made and its message restored when the results fit, and otherwise the calls up to the first result that does not fit |
| CommandFacts.CallOf | kii_thing_if.c:761-876 | in a well-formed command whose results fit there are as many calls as elements, and the call for the j-th element of the i-th list, in its place, is told the text of that alias, of that element's first key and of that key's value |
| CommandFacts.CommaTest | kii_thing_if.c:825-830 | the index test means "not the first result" exactly when the first alias has an action or no action is reached |
| CommandFacts.MeaningOfResults | kii_thing_if.c:822-844 | the results mean one entry per call, in order: its raw name, the handler's flag, and the error text exactly for a failure |
| CommandFacts.ResultNamesClean | kii_thing_if.c:831-833 | the names that results repeat may stand between quotes as they are, whatever the message |
| CommandFacts.ReceiverReadsResults | kii_thing_if.c:755-882 | results that are sent are read as the list of what was handled if and only if the first alias acts, or none does, and every reported error text needs no escaping |
| CommandFacts.MessageRestored | kii_thing_if.c:788-863 | the message ends byte for byte as received, exactly unless the walk starts and either the texts of the results do not fit or the list of an alias that is reached cannot be walked to its end |
| Results.EntryReads | kii_thing_if.c:831-844 | one printed result is read as what it means exactly when its error text, if any, needs no escaping |
| Results.BodyReads | kii_thing_if.c:755-878 | the body is read as the list of meanings exactly when commas stand before all entries but the first and the error texts need no escaping |
| Examples.LeadingComma | kii_thing_if.c:825-830 | a concrete message with an empty first alias: its results are sent exactly when they fit, and no receiver reads in them what was handled |
| Examples.MessageCalls | kii_thing_if.c:761-876 | the concrete message has one call, told "B", "t" and "1" |
| Examples.LeftoverTerminators | kii_thing_if.c:844-848 | a concrete message that is left with terminators when its result does not fit |
| Examples.UnreadableAction | kii_thing_if.c:808-811 | a concrete message whose only action has no name: no call, no result, and a terminator left in it, however much room there is |
| Paths.WritePath | kii_thing_if.c:270-368 | a path is refused exactly when its parts are together not shorter than the buffer, and then nothing is written; otherwise exactly the concatenation and its terminator are |
| Paths.SetOnboardPath | kii_thing_if.c:270-290 | the onboarding path as a C string |
| Paths.SetStatePath | kii_thing_if.c:292-317 | the state path as a C string |
| Paths.SetThingPath | kii_thing_if.c:319-368 | the paths of firmware version and thing type as C strings |
| Routes.PropertyRoute | kii_thing_if.c:319-368 | a server reads in the path of a property the application, the thing and the property |
| Paths.ResultsPathFits | kii_thing_if.c:718-742 | the written length is the guard's sum and one; accepted paths fit with their terminator exactly when the sum is at most 254 |
| Paths.ResultsPathOneShort | kii_thing_if.c:718-742 | an accepted path of 256 characters |
| Paths.WriteResultsPath | kii_thing_if.c:718-742 | what the buffer, and the memory behind it, hold after the results path was put together: nothing changes for a refused path, and the place behind the buffer is written exactly at the largest accepted sum |
| Paths.IndicesFit | kii_thing_if.c:640-647 | every index that the loops ask for, one past the end included, fits a buffer of four characters more than the digits of the payload's length |
| Bodies.ObjectReads | kii_thing_if.c:78-175 | a body of keys and values is read back as exactly these, in order, if and only if quoted values need no escaping and the others are one JSON value |
| Bodies.ThingReads | kii_thing_if.c:1018-1031 | the same for onboarding requests, for every choice of optional fields |
| Bodies.ThingKeys | kii_thing_if.c:1018-1031 | each given value stands under its own key, quoted except for the properties, and no other key is there |
| Bodies.ThingOrder | kii_thing_if.c:1018-1031 | the given values stand in the order in which they are appended |
| Bodies.ThingExact | kii_thing_if.c:1018-1031 | the onboarding body is one object of the given fields, written completely exactly when identifier and password are given and the whole fits |
| Bodies.AppendThing | kii_thing_if.c:1184-1199 | the appends of both onboarding calls write that body |
| Lifecycle.CredentialsExact | kii_thing_if.c:939-946 | the token request's body is one object of grant type, identifier and key, written completely exactly when it fits |
| Lifecycle.CredentialKeys | kii_thing_if.c:939-946 | the grant type, the application's identifier and its key stand under their keys, in this order |
| Lifecycle.CredentialsRead | kii_thing_if.c:939-946 | it is read back exactly when identifier and key need no escaping |
| Lifecycle.SessionIsStrict | kii_thing_if.c:930-957 | a session that gives up at its first failure: nothing exactly for a path that is too long, else one start with that verb, path and content type, and a run exactly when the body fits, of the whole body, answered after that start |
| Lifecycle.SessionTextExact | kii_thing_if.c:242-266 | an answer brings a text exactly when its status is from 200 to 299 and its body has the field and fits |
| Lifecycle.AttemptExact | kii_thing_if.c:374-398 | the parts of an attempt are the fields access_token, thingID and accessToken of successful answers |
| Lifecycle.RefusedOnboarding | kii_thing_if.c:954-957 | an onboarding with a session that was not answered with success leaves the state and the updater's credentials as they were |
| Lifecycle.ExecuteSession | kii_thing_if.c:209-268 | success is exactly a run that was answered with a status from 200 to 299 |
| Lifecycle.GetAnonymousToken | kii_thing_if.c:906-978 | its requests, event by event; the token is stored exactly when the answer succeeded and carried one that fits |
| Routes.TokenRoute | kii_thing_if.c:912-937 | the token is asked for in the application, by a POST of JSON to its path, or not at all when that has 64 characters or more |
| Lifecycle.OnboardSession | kii_thing_if.c:980-1050 | its requests, event by event, also when it goes on after a failed start, where its body follows some text of the earlier body's length; each credential is stored exactly when it arrived and fits |
| Routes.OnboardRoute | kii_thing_if.c:998-1015 | the thing is onboarded in the application, by a POST to its path, or not at all when no token arrived or the path has 64 characters or more |
| Lifecycle.UnstartedRun | kii_thing_if.c:1177-1204 | a request is run without a start exactly when the call goes on after a failed start, the token arrived, the path is short enough, and identifier and password are given and fit behind the token request's body; it goes to the token request's path |
| Lifecycle.UnstartedRunHappens | kii_thing_if.c:1177-1204 | a concrete server with which that happens |
| Lifecycle.TextFieldReads | kii_thing_if.c:374-398 | a field that was printed as quoted text is read back from an answer when it needs no escaping and fits |
| Lifecycle.SetAuthor | kii_thing_if.c:1092-1111 | credentials are copied both, or not at all exactly when one of them is not shorter than its buffer |
| Lifecycle.ThingIf.Init | kii_thing_if.c:403-530 | two new instances with the given application, key, network and tokens, without credentials, in the initialised state |
| Lifecycle.ThingIf.InitWithOnboardedThing | kii_thing_if.c:1249-1281 | the same, onboarded with the given credentials in both copies exactly when they are shorter than their buffers |
| Lifecycle.ThingIf.OnboardThing | kii_thing_if.c:1113-1247 | both sessions, event by event; the state and both copies of the credentials are what the attempt makes of them |
| Lifecycle.ThingIf.OnboardWithVendorThingId | kii_thing_if.c:1113-1147 | the same for a vendor's identifier, in the order of the public parameters, giving up on a failed start |
| Lifecycle.ThingIf.OnboardWithThingId | kii_thing_if.c:1214-1247 | the same for a thing's identifier, going on after a failed start |
| Lifecycle.ThingIf.StartTasks | kii_thing_if.c:1283-1299 | accepted exactly from the onboarded state when the subscription succeeds, and does not change the state |
| Lifecycle.ThingIf.GetProperty | kii_thing_if.c:1301-1373 | no request but from the onboarded state; then one request, and the text of the field exactly when it arrived and fits |
| Lifecycle.ThingIf.GetFirmwareVersion | kii_thing_if.c:1301-1373 | the same for the firmware version, with its path, its limit of 128 characters and its field |
| Lifecycle.ThingIf.GetThingType | kii_thing_if.c:1436-1508 | the same for the thing type |
| Lifecycle.ThingIf.UpdateProperty | kii_thing_if.c:1375-1434 | no request but from the onboarded state; then one request with exactly the one field, and success exactly for an answer with a status from 200 to 299 |
| Lifecycle.ThingIf.UpdateFirmwareVersion | kii_thing_if.c:1375-1434 | the same for the firmware version, with its path, content type and field |
| Lifecycle.ThingIf.UpdateThingType | kii_thing_if.c:1509-1568 | the same for the thing type |
| LifecycleFacts.UpdaterCredentials | kii_thing_if.c:1113-1281 | after every sequence of calls the updater holds identifier and token of one and the same onboarding, the latest, or nothing, and the instance is onboarded exactly when there was one |
| LifecycleFacts.CopiesAgree | kii_thing_if.c:1137-1144 | from each successful onboarding until the next attempt both copies are equal |
| LifecycleFacts.CommandCredentials | kii_thing_if.c:960-975 | after every sequence of calls the command handler holds the latest identifier and token that failed attempts received, and what is in force where there are none |
| LifecycleFacts.AgreementExact | kii_thing_if.c:960-975 | after every sequence of calls both copies are equal exactly when nothing that failed attempts received differs from what is in force |
| LifecycleFacts.FailedAttemptSplitsCopies | kii_thing_if.c:960-975 | a concrete run after which the command handler holds an anonymous token and the updater the thing's |
| LifecycleFacts.StateChanges | kii_thing_if.c:1113-1299 | only a completed onboarding onboards, only initialising ends it, and no run reaches the started state |
| LifecycleFacts.TasksAreAcceptedStarts | kii_thing_if.c:1283-1299 | after every sequence of calls there are as many tasks as accepted starts |
| LifecycleFacts.StartsRepeat | kii_thing_if.c:1283-1299 | an onboarded instance accepts any number of starts |
| Updater.UpdateStatus | kii_thing_if.c:1052-1090 | the loop's log, for any number of rounds, is the specified one, and empty when the path is too long |
| Updater.RoundsAreDelayed | kii_thing_if.c:1068-1088 | in any number of rounds there is one delay a round, never more runs than delays, and every run is a started request with a whole state |
| Updater.RoundsInStep | kii_thing_if.c:1068-1088 | in any number of rounds every request is started right after a delay of the period in milliseconds, and at no time are there more runs than delays |
| RunningTasks.RequestBelongs | kii_thing_if.c:1052-1076 | in every run, a state request has the path of the credentials in force when its task began and the token of those in force now, and both belong together exactly when the identifier is still the same |
| RunningTasks.RequestMixes | kii_thing_if.c:1113-1147 | a concrete run in which the path of one thing is used with the token of another |
| TwoInstances.NonInterference | kii_thing_if.c:434-462 | with disjoint buffers every interleaving leaves each instance, its log and its buffer as its own operations alone would |
| TwoInstances.OverlapInterferes | kii_thing_if.c:434-462 | disjointness is needed: if a place of the command task's next body lies in the updater's buffer, there is an interleaving in which the command task sends what it never wrote |
| TwoInstances.Apply | kii_thing_if.c:596-627 | the operations of the interleaving model are the methods of the sequential instance, up to what a run leaves in the place of its body |
| TwoInstances.TasksAreSequential | kii_thing_if.c:596-627 | tasks that add and send only after a successful start ask, however they interleave, for exactly what sequential instances would |
| Reactive.TasksReactAlone | kii_thing_if.c:434-462 | with disjoint buffers, under every schedule, tasks that decide by what came of what they did take the decisions, and their instances go through the states, of as many turns alone |
| Reactive.ScriptPerforms | kii_thing_if.c:434-462 | every list of operations is performed by some task, so that what is said of tasks with given operations is said of something |
| TwoTasks.MessageSent | kii_thing_if.c:678-892 | the single operations of handling a message keep that discipline and log what handling the message logs |
| TwoTasks.RoundsSent | kii_thing_if.c:1068-1088 | so do the updater's rounds |
| TwoTasks.TasksUndisturbed | kii_thing_if.c:678-1090 | a task that handles a message when alone, next to one that goes any number of rounds when alone, under any schedule: each logs what it logs alone |
| Decimal.SignedRoundTrip | cc3200-sample/freertos_thingsdk_demo/main.c:814-831 | a printed integer, negative or not, is read back |
| Decimal.Int32Width | cc3200-sample/freertos_thingsdk_demo/main.c:814-831 | no 32-bit number takes more than eleven characters |
| SharedRecord.RunKeeps | cc3200-sample/freertos_thingsdk_demo/main.c:664-790 | the invariant of lock, copies, record and reports holds in every state of every interleaving |
| SharedRecord.ReportsAreAtomic | cc3200-sample/freertos_thingsdk_demo/main.c:664-836 | every report is the record after some first part of the committed actions, later reports never show earlier records, and an unlocked record is the fold of all committed actions |
| SharedRecord.NoUpdateLost | cc3200-sample/freertos_thingsdk_demo/main.c:716-789 | each commit applies its action to the record that all earlier commits made |
| SharedSamples.RecordIsLight | cc3200-sample/freertos_thingsdk_demo/main.c:698-790 | the fold over fields is the light after the actions, told without fields |
| SharedSamples.LightReports | cc3200-sample/freertos_thingsdk_demo/main.c:792-836 | every printed report, in every interleaving, reads back as the light after some first part of the committed actions |
| SharedSamples.LightUpdates | cc3200-sample/freertos_thingsdk_demo/main.c:698-790 | a committed action found the light of all earlier ones and left what it makes of it |
| SharedSamples.AirReports | linux-sample/example.c:23-136 | every printed report of the air conditioner reads back as its record after some first part of the committed actions |
| SmartLight.ActionFrame | cc3200-sample/freertos_thingsdk_demo/main.c:722-783 | an action changes no field but those that its name says |
| SmartLight.HandledExactly | cc3200-sample/freertos_thingsdk_demo/main.c:698-783 | an action is handled exactly when its schema or its version is right, its name is one of four, and every parameter of that name is there and is a number or a boolean |
| SmartLight.ColorWhole | cc3200-sample/freertos_thingsdk_demo/main.c:748-766 | a colour is taken with all three components, each from its own place, or not at all |
| SmartLight.SwitchDoes | cc3200-sample/freertos_thingsdk_demo/main.c:722-734 | asked to switch, the light is switched as asked |
| SmartLight.NumberDoes | cc3200-sample/freertos_thingsdk_demo/main.c:735-779 | asked for a brightness or a colour temperature, for every 32-bit number, that field gets that number |
| SmartLight.ColorDoes | cc3200-sample/freertos_thingsdk_demo/main.c:748-766 | asked for a colour, the three components get the three numbers |
| SmartLight.ChunksFit | cc3200-sample/freertos_thingsdk_demo/main.c:796-834 | every printed chunk fits, terminated, its buffer of 256 characters |
| SmartLight.StateRoundTrip | cc3200-sample/freertos_thingsdk_demo/main.c:803-834 | the printed state of every light is read back as that light |
| SmartLight.Device.ActionHandler | cc3200-sample/freertos_thingsdk_demo/main.c:698-790 | a handled action transforms the record, a failed one leaves every field as it was |
| SmartLight.Device.StateHandler | cc3200-sample/freertos_thingsdk_demo/main.c:792-836 | succeeds exactly when the whole state fits, and then the body has grown by it |
| AirConditioner.PresetTemperature | linux-sample/example.c:78-80 | setting the temperature sets it to zero, so that it does as asked exactly when asked for zero |
| AirConditioner.PowerSwitches | linux-sample/example.c:74-77 | switching is on exactly for the parameter "true" and keeps the temperature, for both aliases |
| AirConditioner.OtherActions | linux-sample/example.c:62-80 | an action is refused exactly for an alias that is neither of the two, and an unknown name keeps both fields |
| AirConditioner.AtoiReads | linux-sample/example.c:79 | the reading of a number gives back every number that is printed |
| AirConditioner.ConditionerRoundTrip | linux-sample/example.c:113-133 | the printed state of every air conditioner is read back as that one |
| AirConditioner.Device.ActionHandler | linux-sample/example.c:51-87 | an action of a known alias transforms the record and succeeds, any other changes nothing and fails |
| AirConditioner.Device.StateHandler | linux-sample/example.c:105-135 | succeeds exactly when the whole state fits, and then the body has grown by it |

## Left out

- Paths.WriteResultsPath: what lies behind the buffer, and is changed there, has no further part in the model.
- Dispatcher.HandleMessage: takes the results path as a text, also when its terminator stands behind the buffer that it is put together in.
- Dispatcher.ReceivedCallback: a custom push handler is a function of the message; requests that it makes itself are not modelled.
- Dispatcher.KeyAndValueOfObject: asks for a token array of more than one token, which the parse of the list before it has shown. Models the build whose token array belongs to the instance; in the build with a fixed number of tokens (`kii_thing_if.c:543-545`) the array is a new local one, whose older tokens are not determined.
- Dispatcher.PerformAction: a handler that fails without writing an error text leaves an uninitialised text to report; the model's handlers always give one, of any length, where the program has room for 50 characters.
- Updater.UpdateStatus: the endless loop is observed for any number of rounds, with the same credentials; `RunningTasks` has the case of changing ones. The period in milliseconds is not cut to the width of a C `int`.
- RunningTasks.RequestBelongs: both credentials are replaced at once; a task that begins, or a request that is started, between the two copies is not modelled.
- Lifecycle.ExecuteSession: the parse of an error answer, which sets an error code and overwrites tokens, is not modelled, nor that parsing an answer overwrites tokens.
- Lifecycle.ThingIf.Init: the callbacks and buffers that are stored are not modelled, except as the network of the instance.
- Lifecycle.ThingIf.StartTasks: the push subscription and the creation of the task are a result and a counter.
- TwoInstances.NonInterference: what a task reads outside the SDK, such as the shared device record, is part of the operations that it performs.
- SharedRecord.RunKeeps: locking and unlocking always succeed; the two tasks are the only ones that touch the record.
- SmartLight.Device.ActionHandler: the error texts that the handler writes are not modelled.
- AirConditioner.Device.StateHandler: the branch that copies a file (`linux-sample/example.c:93-104`) is not modelled.
- The `error` structure that callers may pass, logging, and `assert`.
- The growth of the token array through the resource callback.
- Headers, content lengths and encodings of HTTP; sockets, TLS, DNS, MQTT and the push routine.
- The board, its network events, command lines, scripts and build files.
