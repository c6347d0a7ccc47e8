# AMQP build trigger: a Dafny model

This project models the core of the Jenkins AMQP build-trigger plugin. A job
carries a trigger that names one or more AMQP brokers. The plugin keeps one
connection per broker, listens on a source address, and turns every message
received there into a build request for the job. The message body, when it is a
JSON object, supplies values for the job's parameters.

Three Java classes are modelled:

- `AmqpBuildTrigger` (module `Trigger`, file `trigger.dfy`): the mapping from a
  message to build parameters, the scheduling call and the project name. The
  mapping is pure and is modelled as functions. Its loop is the method
  `GetParamsFromMsgPayload`, proved equal to the function `ParamsFor`.
  `BuildTrigger` is a class because Jenkins sets its `job` field in place.
- `AmqpBrokerParams` (module `Broker`, file `broker.dfy`): the broker settings.
  The class `BrokerParams` has four mutable fields and setters. URL
  normalisation, the credential lookup, the validity rule and `toString` are
  module functions that the class's functions are proved equal to.
- `AmqpConnection` (module `Lifecycle`, file `lifecycle.dfy`): a state machine
  over three nullable resources (connection, session, message consumer), with
  `open`, `shutdown` and `update` as methods of the class `Connection`.
  The transport is not modelled. Which transport calls throw is a parameter.
  The calls of `open` and `shutdown` that may throw are appended to a ghost
  trace `calls`, and the contracts state that trace exactly. The reads `update`
  makes of a live connection (its URI, user name, password and liveness) and
  the registration of the connection listener are not traced.

Supporting modules:

- `Text` (`text.dfy`): `String.toUpperCase`, `Character.isWhitespace` and `StringUtils.strip`.
- `Json` (`json.dfy`): a parsed message member, and json-lib's `optString` and `optBoolean`.
- `Wrappers` (`wrappers.dfy`): `Option`. A Java reference that may be null is an `Option`.

Four behaviours of the code, each modelled as written, decide what a message does:

- Unmatched message members are not collected anywhere. The loop
  walks the job's parameter definitions, not the message, so members that name
  no definition are simply ignored (`Trigger.UnmatchedMemberIsIgnored`).
- Parameter names are upper-cased before the lookup. A message key containing a
  lower-case ASCII letter is therefore never read (`Trigger.LowerCaseKeyIsNeverLookedUp`).
- A definition whose key is missing from the message still contributes its
  default value. It is not left out of the build.
- The drift test of `update` replaces a connection only when the URL, the user
  name and the password have ALL changed. It is modelled as written
  (`Lifecycle.Drifted`); a changed URL alone keeps the old connection
  (`Lifecycle.DriftNeedsEverythingChanged`).

## Model

| member | source | states |
|---|---|---|
| Text.UpperCase | src/main/java/com/redhat/jenkins/plugins/amqpbuildtrigger/AmqpBuildTrigger.java:88 | upper-casing keeps the length, maps each character by `UpperChar` and leaves no lower-case ASCII letter |
| Text.UpperCaseKeepsUpper | src/main/java/com/redhat/jenkins/plugins/amqpbuildtrigger/AmqpBuildTrigger.java:88 | a name with no lower-case letter is its own upper-case form, so upper-casing is idempotent |
| Text.EqualsIgnoreCase | src/main/java/com/redhat/jenkins/plugins/amqpbuildtrigger/AmqpBuildTrigger.java:117 | two strings are equal ignoring case when their ASCII upper-case forms are equal, as `getBoolean` compares with "true" and "false" |
| Text.IsWhitespace | src/main/java/com/redhat/jenkins/plugins/amqpbuildtrigger/AmqpBrokerParams.java:71 | the characters `Character.isWhitespace` accepts, which `stripToNull` trims |
| Text.StripStart | src/main/java/com/redhat/jenkins/plugins/amqpbuildtrigger/AmqpBrokerParams.java:71 | drops the leading characters of the class; its shape is stated by `StripStartRemovesPrefix` |
| Text.StripEnd | src/main/java/com/redhat/jenkins/plugins/amqpbuildtrigger/AmqpBrokerParams.java:71 | drops the trailing characters of the class; its shape is stated by `StripEndRemovesSuffix` |
| Text.Strip | src/main/java/com/redhat/jenkins/plugins/amqpbuildtrigger/AmqpBrokerParams.java:71 | `StringUtils.strip`: both ends stripped; its shape is stated by `StripKeepsMiddle` |
| Text.StripStartRemovesPrefix | src/main/java/com/redhat/jenkins/plugins/amqpbuildtrigger/AmqpBrokerParams.java:71 | stripping the front removes a prefix made only of dropped characters, and the result starts with a kept character |
| Text.StripEndRemovesSuffix | src/main/java/com/redhat/jenkins/plugins/amqpbuildtrigger/AmqpBrokerParams.java:71 | stripping the back removes a suffix made only of dropped characters, and the result ends with a kept character |
| Text.StripKeepsMiddle | src/main/java/com/redhat/jenkins/plugins/amqpbuildtrigger/AmqpBrokerParams.java:71 | `strip` leaves neither end droppable, is empty exactly when every character is dropped, and returns a string with kept ends unchanged |
| Json.ToText | src/main/java/com/redhat/jenkins/plugins/amqpbuildtrigger/AmqpBuildTrigger.java:111 | the `toString` text of a member value, JSON null as "null" |
| Json.AsBoolean | src/main/java/com/redhat/jenkins/plugins/amqpbuildtrigger/AmqpBuildTrigger.java:117 | a JSON boolean, or a string equal to "true" or "false" ignoring case; anything else is no boolean (see `TrueInAnyCase`, `FalseInAnyCase`, `StringOfOtherLengthIsNotBoolean`) |
| Json.OptString | src/main/java/com/redhat/jenkins/plugins/amqpbuildtrigger/AmqpBuildTrigger.java:111 | the member's text when the key is present, the default otherwise |
| Json.OptBoolean | src/main/java/com/redhat/jenkins/plugins/amqpbuildtrigger/AmqpBuildTrigger.java:117 | the member's boolean when present and readable as one, the default when absent or unreadable |
| Json.StringOfOtherLengthIsNotBoolean | src/main/java/com/redhat/jenkins/plugins/amqpbuildtrigger/AmqpBuildTrigger.java:117 | a string of length other than 4 or 5 never reads as a boolean |
| Json.TrueInAnyCase | src/main/java/com/redhat/jenkins/plugins/amqpbuildtrigger/AmqpBuildTrigger.java:117 | a string reading "true" in any letter case reads as true |
| Json.FalseInAnyCase | src/main/java/com/redhat/jenkins/plugins/amqpbuildtrigger/AmqpBuildTrigger.java:117 | a string reading "false" in any letter case reads as false |
| Trigger.ScalarText | src/main/java/com/redhat/jenkins/plugins/amqpbuildtrigger/AmqpBuildTrigger.java:111 | the `toString` of a default value used as the string default |
| Trigger.TypeOf | src/main/java/com/redhat/jenkins/plugins/amqpbuildtrigger/AmqpBuildTrigger.java:89 | "bool" for a boolean definition, "string" for every other kind |
| Trigger.ParamValueFromPayload | src/main/java/com/redhat/jenkins/plugins/amqpbuildtrigger/AmqpBuildTrigger.java:103-127 | a value exists iff the name is non-empty and the default value is non-null; it carries the name, is boolean iff the type is "bool", and takes the message member when present and usable, the default otherwise |
| Trigger.Resolve | src/main/java/com/redhat/jenkins/plugins/amqpbuildtrigger/AmqpBuildTrigger.java:84-95 | a definition yields nothing iff its default parameter or default value is null or its name is empty; otherwise a value under the upper-cased name, boolean iff the definition is boolean |
| Trigger.GetParamsFromMsgPayload | src/main/java/com/redhat/jenkins/plugins/amqpbuildtrigger/AmqpBuildTrigger.java:79-101 | the loop's result is the schema-order list `ParamsFor`, and empty for a job without parameters property |
| Trigger.ParamsFromPayload | src/main/java/com/redhat/jenkins/plugins/amqpbuildtrigger/AmqpBuildTrigger.java:84-96 | the definitions' values in schema order; characterised by `ParamsComeFromResolvedPositions`, `ResolvedPositionsIncrease` and `ResolvedPositionsComplete` |
| Trigger.ParamsFor | src/main/java/com/redhat/jenkins/plugins/amqpbuildtrigger/AmqpBuildTrigger.java:81-98 | no parameters for a job without parameters property, else `ParamsFromPayload` |
| Trigger.ParamsComeFromResolvedPositions | src/main/java/com/redhat/jenkins/plugins/amqpbuildtrigger/AmqpBuildTrigger.java:84-96 | the k-th parameter is the value of the definition at the k-th resolving position |
| Trigger.ResolvedPositionsIncrease | src/main/java/com/redhat/jenkins/plugins/amqpbuildtrigger/AmqpBuildTrigger.java:84-96 | resolving positions are strictly increasing, so parameters keep schema order |
| Trigger.ResolvedPositionsComplete | src/main/java/com/redhat/jenkins/plugins/amqpbuildtrigger/AmqpBuildTrigger.java:84-96 | a definition's position is listed iff that definition yields a value: nothing is dropped or invented |
| Trigger.ParamsAtMostOnePerDefinition | src/main/java/com/redhat/jenkins/plugins/amqpbuildtrigger/AmqpBuildTrigger.java:84-96 | the list is never longer than the schema |
| Trigger.ResolveReadsOnlyItsKey | src/main/java/com/redhat/jenkins/plugins/amqpbuildtrigger/AmqpBuildTrigger.java:87-91 | a definition's value depends only on the message member under its upper-cased name |
| Trigger.ParamsDependOnlyOnLookupKeys | src/main/java/com/redhat/jenkins/plugins/amqpbuildtrigger/AmqpBuildTrigger.java:79-101 | two messages agreeing on the looked-up keys give the same parameter list |
| Trigger.UnmatchedMemberIsIgnored | src/main/java/com/redhat/jenkins/plugins/amqpbuildtrigger/AmqpBuildTrigger.java:79-101 | adding or changing a member under a key no definition looks up changes nothing |
| Trigger.LowerCaseKeyIsNeverLookedUp | src/main/java/com/redhat/jenkins/plugins/amqpbuildtrigger/AmqpBuildTrigger.java:88 | a key with a lower-case letter is never looked up |
| Trigger.NoDefaultsNoParams | src/main/java/com/redhat/jenkins/plugins/amqpbuildtrigger/AmqpBuildTrigger.java:85-86 | definitions that all lack a default value give no parameters, whatever the message |
| Trigger.BooleanParamFromString | src/main/java/com/redhat/jenkins/plugins/amqpbuildtrigger/AmqpBuildTrigger.java:116-121 | a boolean definition whose upper-cased name carries a string reading "true" in any case yields true, whatever the name and the default |
| Trigger.ExampleMissingKeyGivesDefault | src/main/java/com/redhat/jenkins/plugins/amqpbuildtrigger/AmqpBuildTrigger.java:110-115 | a string definition whose key is missing yields its default value |
| Trigger.BuildTrigger.constructor | src/main/java/com/redhat/jenkins/plugins/amqpbuildtrigger/AmqpBuildTrigger.java:36-39 | a new trigger has no job; Jenkins attaches one later |
| Trigger.BuildTrigger.ProjectName | src/main/java/com/redhat/jenkins/plugins/amqpbuildtrigger/AmqpBuildTrigger.java:55-60 | the job's full name, or "" when no job is attached |
| Trigger.BuildTrigger.ScheduleBuild | src/main/java/com/redhat/jenkins/plugins/amqpbuildtrigger/AmqpBuildTrigger.java:62-77 | no request iff there is no job or no source; a request names the job and the source as cause; it carries parameters iff the message is a JSON object, and then exactly the mapped list |
| Broker.NormalizeUrl | src/main/java/com/redhat/jenkins/plugins/amqpbuildtrigger/AmqpBrokerParams.java:71 | trims whitespace, maps a blank URL to null, then strips '/' from both ends; its shape is stated by `NormalizedUrlShape` and `CleanUrlIsKept` |
| Broker.NormalizedUrlShape | src/main/java/com/redhat/jenkins/plugins/amqpbuildtrigger/AmqpBrokerParams.java:70-72 | the URL is null iff the raw URL is null or blank; otherwise it is no longer than the raw URL and neither starts nor ends with '/' |
| Broker.CleanUrlIsKept | src/main/java/com/redhat/jenkins/plugins/amqpbuildtrigger/AmqpBrokerParams.java:70-72 | a URL with no surrounding whitespace or slashes is returned unchanged |
| Broker.FirstMatch | src/main/java/com/redhat/jenkins/plugins/amqpbuildtrigger/AmqpBrokerParams.java:61-68 | the first index whose credential id equals the given id, or the list length; a null id matches none |
| Broker.FindCredentials | src/main/java/com/redhat/jenkins/plugins/amqpbuildtrigger/AmqpBrokerParams.java:61-68 | a found credential is in the store and has the id; none is found iff no credential has it |
| Broker.PasswordFor | src/main/java/com/redhat/jenkins/plugins/amqpbuildtrigger/AmqpBrokerParams.java:52-59 | the found credential's secret, or the empty secret when none has the id |
| Broker.PasswordIsFirstMatch | src/main/java/com/redhat/jenkins/plugins/amqpbuildtrigger/AmqpBrokerParams.java:56-68 | with duplicate ids, the password is the first matching credential's |
| Broker.ParamsValid | src/main/java/com/redhat/jenkins/plugins/amqpbuildtrigger/AmqpBrokerParams.java:110-117 | invalid without a non-empty source address; a non-empty URL must normalise to an accepted one; a null or empty URL is not checked |
| Broker.JavaText | src/main/java/com/redhat/jenkins/plugins/amqpbuildtrigger/AmqpBrokerParams.java:106-108 | a null string is written as "null" |
| Broker.Describe | src/main/java/com/redhat/jenkins/plugins/amqpbuildtrigger/AmqpBrokerParams.java:106-108 | the raw URL, a '/', then the source address, each at its place in the result |
| Broker.BrokerParams.constructor | src/main/java/com/redhat/jenkins/plugins/amqpbuildtrigger/AmqpBrokerParams.java:44-50 | the four fields hold the given values |
| Broker.BrokerParams.Url | src/main/java/com/redhat/jenkins/plugins/amqpbuildtrigger/AmqpBrokerParams.java:70-72 | the normalised stored URL |
| Broker.BrokerParams.Password | src/main/java/com/redhat/jenkins/plugins/amqpbuildtrigger/AmqpBrokerParams.java:52-54 | the secret looked up with the stored credentials id |
| Broker.BrokerParams.IsValid | src/main/java/com/redhat/jenkins/plugins/amqpbuildtrigger/AmqpBrokerParams.java:110-117 | the validity rule on the stored URL and source address |
| Broker.BrokerParams.ToString | src/main/java/com/redhat/jenkins/plugins/amqpbuildtrigger/AmqpBrokerParams.java:106-108 | the description of the stored URL and source address |
| Broker.BrokerParams.SetUrl | src/main/java/com/redhat/jenkins/plugins/amqpbuildtrigger/AmqpBrokerParams.java:82-85 | sets the URL and nothing else |
| Broker.BrokerParams.SetUser | src/main/java/com/redhat/jenkins/plugins/amqpbuildtrigger/AmqpBrokerParams.java:87-90 | sets the user and nothing else |
| Broker.BrokerParams.SetCredentialsId | src/main/java/com/redhat/jenkins/plugins/amqpbuildtrigger/AmqpBrokerParams.java:92-95 | sets the credentials id and nothing else |
| Broker.BrokerParams.SetSourceAddr | src/main/java/com/redhat/jenkins/plugins/amqpbuildtrigger/AmqpBrokerParams.java:101-104 | sets the source address and nothing else |
| Lifecycle.FirstFault | src/main/java/com/redhat/jenkins/plugins/amqpbuildtrigger/AmqpConnection.java:61-83 | the position of the first throwing call of `open`: all calls before it succeed |
| Lifecycle.BeforeQuery | src/main/java/com/redhat/jenkins/plugins/amqpbuildtrigger/AmqpConnection.java:44 | the longest prefix of the URI without '?', followed in the URI by '?' when shorter |
| Lifecycle.AttemptsAreSteps | src/main/java/com/redhat/jenkins/plugins/amqpbuildtrigger/AmqpConnection.java:62-76 | the first n calls of `open` are its first n steps, in order |
| Lifecycle.OpenStopsAtFirstFault | src/main/java/com/redhat/jenkins/plugins/amqpbuildtrigger/AmqpConnection.java:61-83 | `open` makes its calls in order, every call but the last succeeds, the last throws when any call would, and all seven are made iff none of the first six throws |
| Lifecycle.ShutdownOnlyCloses | src/main/java/com/redhat/jenkins/plugins/amqpbuildtrigger/AmqpConnection.java:91-120 | `shutdown` makes only close calls, one per resource held |
| Lifecycle.ShutdownTrace | src/main/java/com/redhat/jenkins/plugins/amqpbuildtrigger/AmqpConnection.java:91-119 | one close per held resource, consumer then session then connection, each with whether it threw |
| Lifecycle.NoQueryIsKept | src/main/java/com/redhat/jenkins/plugins/amqpbuildtrigger/AmqpConnection.java:44 | a URI without '?' is its own part before the query |
| Lifecycle.DriftNeedsEverythingChanged | src/main/java/com/redhat/jenkins/plugins/amqpbuildtrigger/AmqpConnection.java:43-48 | a link on the same query-free URL, or with the same user, or with the same password, is never replaced by the drift test |
| Lifecycle.Drifted | src/main/java/com/redhat/jenkins/plugins/amqpbuildtrigger/AmqpConnection.java:43-47 | the URL before its query, the user and the password all differ from the link's |
| Lifecycle.LiveLinkIsKept | src/main/java/com/redhat/jenkins/plugins/amqpbuildtrigger/AmqpConnection.java:43-51 | a connected link on the configured query-free URL is never shut down by `update`, even with no session or consumer |
| Lifecycle.Link.constructor | src/main/java/com/redhat/jenkins/plugins/amqpbuildtrigger/AmqpConnection.java:64-66 | a new link is connected, on the given URI, with the given user and password |
| Lifecycle.Link.Drop | src/main/java/com/redhat/jenkins/plugins/amqpbuildtrigger/AmqpConnection.java:49 | the transport marks the link disconnected |
| Lifecycle.Connection.constructor | src/main/java/com/redhat/jenkins/plugins/amqpbuildtrigger/AmqpConnection.java:21-29 | a new connection holds no trigger, no resource and has made no call |
| Lifecycle.Connection.AddBuildTrigger | src/main/java/com/redhat/jenkins/plugins/amqpbuildtrigger/AmqpConnection.java:31-36 | a null trigger is refused; otherwise it is added and the result says whether it was new |
| Lifecycle.Connection.Shutdown | src/main/java/com/redhat/jenkins/plugins/amqpbuildtrigger/AmqpConnection.java:91-120 | every resource ends null whether or not its close throws; closes run consumer, session, connection, one per held resource |
| Lifecycle.Connection.Anonymous | src/main/java/com/redhat/jenkins/plugins/amqpbuildtrigger/AmqpConnection.java:63 | the connection is anonymous when the user or the password is empty |
| Lifecycle.Connection.Open | src/main/java/com/redhat/jenkins/plugins/amqpbuildtrigger/AmqpConnection.java:57-89 | a null or rejected URL returns false with no call and no change; otherwise it makes the `open` calls up to the first that throws, returns true iff none throws, and leaves a fresh connection (anonymous iff user or password is empty), session and consumer for each step that succeeded, keeping what was created before a failure |
| Lifecycle.Connection.Listen | src/main/java/com/redhat/jenkins/plugins/amqpbuildtrigger/AmqpConnection.java:61-83 | the try block: the trace up to the first throwing call, and each resource replaced exactly when its creating call succeeded |
| Lifecycle.Connection.Stale | src/main/java/com/redhat/jenkins/plugins/amqpbuildtrigger/AmqpConnection.java:43-50 | `update` shuts the held connection down when it has drifted or is no longer connected (see `LiveLinkIsKept`) |
| Lifecycle.Connection.Update | src/main/java/com/redhat/jenkins/plugins/amqpbuildtrigger/AmqpConnection.java:38-55 | invalid parameters shut everything down; a held connection with a null URL stops with nothing changed; a held, live, undrifted connection is kept unchanged; otherwise what is held is closed and `open` runs from nothing, with the exact call trace |

## Left out

- Text.UpperCase: maps only the ASCII letters, not Java's full Unicode case mapping.
- Text.EqualsIgnoreCase: compares the ASCII upper-case forms, not Java's Unicode case folding.
- json-lib's parsing of the message text is not modelled. The message is given already parsed, and None stands for "not a JSON object".
- json-lib's `fromObject` throws on malformed text rather than returning null. The exception is not modelled; the null branch of `scheduleBuild` is modelled as written.
- Number and compound JSON values are kept only as their text, which is all `optString` reads from them.
- The `ClassCastException` of the Boolean cast is excluded by the precondition `WellTyped`. Jenkins' boolean definitions always have a Boolean default.
- A null user is not modelled (`Broker.BrokerParams.user` is a string). In Java, `getUser().isEmpty()` would throw on it.
- The `IllegalArgumentException` the connection factory may throw on a malformed URL is not modelled. Only the `JMSException` calls are fault points.
- `addConnectionListener` is modelled as not failing, and it is not a step of the trace.
- `getMessageListener` is left out. `update` calls it only when no consumer is held, so it always yields null there, and `open` ignores its argument.
- A URI made only of '?' characters, for which Java's `split` yields an empty array, is not modelled.
- Lifecycle.Connection.Update: a held connection with a null normalised URL makes Java throw a `NullPointerException`; the model returns `completed == false` with nothing changed instead of an exception.
- Lifecycle.Connection.Open: the consumer's message listener, the exception listener and the listener objects are not modelled; only the calls that set them are.
- Logging is not modelled.
- Concurrency is not modelled: the copy-on-write trigger set and transport callbacks running on other threads. A dropped link is an explicit `Link.Drop` call.
- The transport is not modelled. Faults are parameters, and a link's URI, user and password are those it was opened with.
- The URL validator (`com.redhat.jenkins.plugins.validator.UrlValidator`) is not part of this model; it is the parameter `check`.
- Broker.Accepts: the validator is taken to reject a null URL, as commons-validator's `UrlValidator.isValid(null)` does; `check` is only asked about non-null URLs. `isValid` does pass null to it when the raw URL is non-empty but blank (AmqpBrokerParams.java:111-113), and the model then answers invalid whatever `check` is.
- The Jenkins credential store is the parameter `creds`, a list searched in order. Secrets are their plain text.
- Not modelled: the descriptors, form validation and `doTestConnection`, the trigger's broker list (its constructor argument, getter and setter), and the trigger's `toString` (it is `getProjectName`).
- The message listener that calls `scheduleBuild` is not part of this model.
