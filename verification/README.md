# Stader node: a verified model

This project models the parts of the Stader node command line and API that hold state, time or
loops, and proves what they keep over every run.

| files | what they model |
|---|---|
| `Text.dfy`, `Numerals.dfy` | the Go string and number functions that the code calls, on ASCII text |
| `ImageName.dfy` | the Docker image parser of the start gate |
| `SlashingGate.dfy`, `GateHost.dfy` | the anti-slashing start gate: a timed transition system, and the commands that run on it |
| `ClientStatus.dfy`, `Failover.dfy`, `Managers.dfy`, `SyncWait.dfy` | the two client managers, their status checks, their failover, and the waits on top of them |
| `SettingsModel.dfy`, `EditorScreen.dfy`, `WizardScreen.dfy`, `ConfigSession.dfy`, `SettingsInPlace.dfy` | `service config`: dynamically typed parameters, the two screens, the session that alternates between them, and the same updates on shared objects |
| `SavedConfig.dfy`, `HeadlessConfig.dfy` | the configuration file, and `service config` with flags |
| `EventStream.dfy` | the event iterator and the event watcher of the generated bindings (the Approval event of the ERC-20 binding stands for all) |
| `Paging.dfy`, `CycleSelection.dfy`, `MountPoint.dfy` | the paged validator fetch, the cycle selection of reward claims, the longest-mount search |

`dafny verify dfyconfig.toml` checks everything.

## How to read it

*Clocks, Docker, the network, the terminal and the UI library* are arbitrary: they appear as actions
of a transition system, as answers to probes, as schedules, as turns or as input lines, and every
result holds for all of them.

*The gate.* A world holds the clock, the saved and the checked image, the phase of the start command
and the validator and beacon containers with image, status and finish time. Between any two moves
of the command time may pass, a container may crash and Docker may restart it
(`restart: unless-stopped` in `install/templates/validator.tmpl:32`). A client does validator duties
while the validator container runs its image; `install/scripts/start-vc.sh` starts every validator
client there, nimbus included.

*The screens.* A configuration maps each parameter that the screens edit to a value with its Go type
as a tag, because type assertions decide whether a screen opens at all. The wizard's and the
configuration screen's settings are what the UI library is given and gives back.

## What the code does not do as intended

Where the code differs from its comments, messages or documentation, the model follows the code.

* The gate is meant to see to the 15 minutes by itself. A start that replaces a client that is still
  up is not safe: Docker can restart a container that crashed before its status was read
  (`StartIsExact`, `ReplacementIsExact`). Over a paused container it is safe, and so is every list of commands that
  pauses before it starts (`OperatePaused`).
* The gate takes a validator image named `nimbus` to do its duties in the beacon container, and an
  empty name for no client. The images configured by default have other names; it takes a custom
  image to meet this (`ShippedImagesAreSeen`, `CustomNimbusIsNotSeen`).
* Docker compose reads the settings again, so saving another client between the gate and docker
  compose gets past the comparison (`SettingsSavedDuringStart`).
* On a first start there is no container to inspect, so the gate answers with an error and the
  operator is asked; the message about a first start is for an image with an empty name.
* The execution wait that ends by polling reports success while both flags of the manager are down, so
  the next call fails; the beacon wait is written to poll a syncing client but never gets to sleep.
* The wizard writes the external consensus client without its type and cannot read it back; only the
  alternation of screens and the configuration file restore it. Picking the Zhejiang network in the
  wizard and going on to the other screen crashes the session, provided that the UI library returns
  no string for a network that it was given none for.
* `service config` with flags is meant to save and exit; after saving it goes on to the wizard without
  a configuration and crashes. Port numbers beyond 16 bits wrap around.
* Cycle numbers with a leading zero are octal, a rejected answer still adds its cycles, and the end of
  the input claims everything.
* The mount search compares characters, so `/database` is taken to be on a disk mounted at `/data`.

## Model

| member | source | states |
|---|---|---|
| `ImageName.FindsPreferred` | stader-cli/service/service.go:820-824 | the search answers the match that greedy leftmost matching prefers, and none exactly when nothing matches |
| `ImageName.ParsesPreferred` | stader-cli/service/service.go:813-832 | the parser answers a name exactly when it is that of the preferred match, the empty name for the empty image, and an error exactly for any other image without a match |
| `ImageName.ParseInvertsFormat` | stader-cli/service/service.go:62 | parsing repo/name:tag returns the name for every newline-free repo, ports and slashes included |
| `SlashingGate.StepKeepsInv` | stader-cli/service/service.go:684-775 | every step, the environment's included, keeps the invariant that ties the recorded image, its finish time and all past activity together |
| `SlashingGate.InvAlongRun` | stader-cli/service/service.go:684-775 | the invariant holds after every prefix of a disciplined history |
| `SlashingGate.DisciplinedRunIsSafe` | stader-cli/service/service.go:552-682 | over every history in which neither hazard occurs, the gate is overridden only after waiting, and settings for a client that has not waited are not saved between the gate and docker compose, differently named clients are at least 15 minutes apart |
| `SlashingGate.FreshWorld` | stader-cli/service/service.go:684-775 | every machine without a validator container is a state that histories can begin in |
| `SlashingGate.PreparedRunIsSafe` | stader-cli/service/service.go:641-682 | the same without any assumption about Docker, when every start is given while the client to be replaced is down and the gate is not blind to it |
| `SlashingGate.StatusCheckIsExact` | stader-cli/service/service.go:725-746 | from the status check to the end of the start, whatever Docker and the clock do, a start is safe if and only if the container is not between two restarts with an older exit on record |
| `SlashingGate.StartIsExact` | stader-cli/service/service.go:684-775 | a start over any history, whatever Docker and the clock do until it is over, is safe if and only if: when the comparison passes, every other client has waited; when the validator container is looked at, it is down; when the beacon container is looked at, it is missing, or the validator container is down and its client has rested by the time counted down to |
| `SlashingGate.ReplacementIsExact` | stader-cli/service/service.go:720-746 | replacing a client that the gate is not blind to is safe if and only if its container is down beforehand, or the gate finds no container to look at |
| `SlashingGate.OverrideIsExact` | stader-cli/service/service.go:641-682 | confirming a start that the gate refused, or starting with the flag that skips it, is safe if and only if every client but the configured one is down and has been for 15 minutes |
| `SlashingGate.CrashesBehindTheGate` | stader-cli/service/service.go:725-736 | a client that is up, and crashes before its status is read, is taken to have exited |
| `SlashingGate.WaitsForIdleBeacon` | stader-cli/service/service.go:778-791 | for a client named nimbus the countdown can run on the beacon container's old finish time while the validator container stays as it is at every step, active if it was |
| `SlashingGate.StopsTheBeacon` | stader-cli/service/service.go:736-746 | for a client named nimbus the gate can stop the beacon container and count down from then, with the validator container as it was |
| `SlashingGate.SettingsSavedDuringStart` | shared/services/stader/client.go:1257-1275 | settings saved between the gate and docker compose are safe if and only if every client but theirs has waited; over a running client, if and only if they are for the same client |
| `SlashingGate.BlindToTwoNames` | stader-cli/service/service.go:716-722 | for images of any repository and tag, and any other client configured, the gate is blind exactly to an empty name, and to the name nimbus beside a beacon container |
| `SlashingGate.ShippedImagesAreSeen` | shared/services/config/nimbus-config.go:28-36 | the validator images configured by default are named lighthouse, nimbus-validator-client, prysm-validator and teku, so the gate is not blind to them |
| `SlashingGate.CustomNimbusIsNotSeen` | stader-cli/service/service.go:785-787 | a custom image named nimbus is one that it is blind to, whichever shipped client is to follow |
| `GateHost.Host.FindFinishTime` | stader-cli/service/service.go:720-746 | it succeeds exactly if the duty container is there and Docker answers the calls made; what was seen running is stopped; of a container that is down its own finish time is used, unless it never finished, and then it is stopped; unless the status was read as restarting, the container is down afterwards and the finish time used is not before its own |
| `GateHost.Host.Countdown` | stader-cli/service/service.go:749-771 | the countdown ends only when the safe start time has come, after at most 900 sleeps of a second, and no sleep begins after that time |
| `GateHost.Host.CheckForValidatorChange` | stader-cli/service/service.go:684-775 | no validator container or an image without a client name never passes; the recorded client, or none on record, passes at once with nothing stopped and nothing changed; any other client passes exactly if the duty container is there and Docker answers, 15 minutes after the finish time used |
| `GateHost.Host.StartService` | stader-cli/service/service.go:641-682 | a start without the flag and without the confirmation takes only steps of the transition system that override nothing; a restart of the same client passes, an unclear comparison does not, and what was started runs the configured image |
| `GateHost.Host.ComposeUp` | shared/services/stader/client.go:1257-1275 | what runs after docker compose is the configured image; a container that is down and neither recreated nor of another image keeps its finish time |
| `GateHost.Host.Operate` | stader-cli/service/service.go:552-682 | any list of start, pause, save and wait commands on the host is carried out in order and to its end, each start through the gate, and is safe unless one of the two hazards occurs, and in any case if every start found the client to be replaced down and the gate not blind to it |
| `GateHost.Host.OperatePaused` | stader-cli/service/service.go:552-682 | a list of commands that pauses before every start, with only saving and waiting in between and no client named nimbus or nothing, is carried out and is safe whatever Docker and the clock do |
| `ClientStatus.EcStatusMeaning` | shared/services/ec-manager.go:406-472 | a status says working exactly if every call made was answered, synced exactly for a healthy client, no error exactly for a healthy or syncing one, and it names the chain the client is on |
| `ClientStatus.BcStatusMeaning` | shared/services/bc-manager.go:345-370 | a consensus client works exactly if it answers and is synced exactly if it answers that it is not syncing |
| `ClientStatus.RecentForFiveMinutes` | shared/services/requirements.go:515-528 | a block is recent for just under 300 seconds after its time |
| `ClientStatus.NetworkIdWraps` | shared/services/ec-manager.go:420 | chain numbers that agree in their low 64 bits are the same chain |
| `Failover.DisconnectionMeaning` | shared/services/ec-manager.go:520-522 | an error is a disconnection exactly if its text mentions "dial tcp" anywhere |
| `Failover.Disconnected` | shared/services/ec-manager.go:475-517 | the candidates before the answering one are those that disconnect |
| `Failover.AttemptByCases` | shared/services/bc-manager.go:415-454 | first ready client whose outcome is not a disconnection, spelled out as the primary, what is left without it, and the two ways to fail |
| `Failover.OneAnswer` | shared/services/bc-manager.go:373-496 | only ready clients are called, at most one of them gives an outcome that is no disconnection, it is the last and its outcome is the reply; other errors are never retried |
| `Failover.FlagsAfter` | shared/services/ec-manager.go:484-489 | an operation clears a flag exactly when it called that client and the client disconnected |
| `Failover.CallsAreBounded` | shared/services/bc-manager.go:311-342 | n operations make at most n + 1 client calls, plus one for every status check that takes effect |
| `Failover.OneMoreEvent` | shared/services/bc-manager.go:311-496 | after one more event the flags are those that the operation leaves, or that the check finds unless it is ignored, and the calls grow by those of the operation |
| `Failover.FlagsOnlyFall` | shared/services/ec-manager.go:351-366 | between status checks that take effect no flag rises |
| `Failover.NoneReadyIsFinal` | shared/services/services.go:498-532 | with no ready client nothing is called and nothing changes until a status check, and never again if sync checks are ignored |
| `Managers.ExecutionClientManager.constructor` | shared/services/services.go:498-514 | the initial flags under the two global options; a manager without a fallback never promises one |
| `Managers.ExecutionClientManager.CheckStatus` | shared/services/ec-manager.go:351-391 | the flags become exactly healthy, and healthy on the expected chain, and stay so bound until the next check; ignoring keeps them |
| `Managers.ExecutionClientManager.RunFunction` | shared/services/ec-manager.go:475-517 | refines the one failover specification, keeps the flags' promises, never runs on a missing client, and terminates |
| `Managers.BeaconClientManager.constructor` | shared/services/services.go:516-532 | the same for the beacon manager |
| `Managers.BeaconClientManager.CheckStatus` | shared/services/bc-manager.go:311-342 | the flags become exactly answering and not syncing; ignoring keeps them |
| `Managers.BeaconClientManager.RunFunction` | shared/services/bc-manager.go:373-496 | refines the same failover specification for all three result shapes |
| `SyncWait.CheckExecutionClientStatus` | shared/services/requirements.go:273-311 | exactly one of synced, a client to wait for and an error; synced exactly if the check finds a healthy client on the right chain, or sync checks are ignored and one was ready; the client to wait for is the primary if it reports progress, else the fallback if that does and is on the right chain |
| `SyncWait.WaitEthClientSynced` | shared/services/requirements.go:353-439 | the wait ends with the first round that ends it, and each round before it polls the client that the latest status check selected; with a timeout T at most T/5 + 1 polls, and false only after more than T seconds; it succeeds with a ready client exactly if its last status check leaves one, which up to a timeout of 60 seconds is the check at the call; success by polling has no client ready |
| `SyncWait.ChecksAreFresh` | shared/services/requirements.go:393-403 | at every round the check in force is at most a minute old, and is the first one or that of a round that was due |
| `SyncWait.ReadinessIsNoticed` | shared/services/requirements.go:393-403 | a round ends the wait with a ready client exactly if the last check is more than a minute old, the answers show a healthy client on the right chain, and the timeout has not passed |
| `SyncWait.RefreshIsSoonDue` | shared/services/requirements.go:385-436 | a wait that goes on checks the status again at least once in any thirteen rounds |
| `SyncWait.FailureHasACause` | shared/services/requirements.go:397-426 | a round fails exactly for a refresh that finds nobody ready or syncing, with that error, or for an error of the poll, with its message |
| `SyncWait.TimeoutIsExact` | shared/services/requirements.go:388-390 | a round times out exactly if it begins more than the timeout after the first check |
| `SyncWait.PollingIsExact` | shared/services/requirements.go:406-430 | a poll ends the wait with success exactly for a client that reports no progress and has a block less than 300 seconds old, and goes on exactly for one that reports progress or has an older block |
| `SyncWait.RoundsOnTime` | shared/services/requirements.go:432-433 | rounds that nothing holds up are five seconds apart |
| `SyncWait.NoRefreshInTime` | shared/services/requirements.go:387-396 | with a timeout of up to a minute no round refreshes the status |
| `SyncWait.RequireEthClientSynced` | shared/services/requirements.go:78-87 | ends within four polls, and times out exactly after more than 16 seconds; the error is that of the wait, or that the client is still syncing; there is no error and a client ready for the next call if and only if at the call a client was healthy on the right chain, or sync checks were ignored and one was ready |
| `SyncWait.CheckBeaconClientStatus` | shared/services/requirements.go:313-351 | synced exactly when a client is ready; an error exactly when none is and none answers |
| `SyncWait.WaitBeaconClientSynced` | shared/services/requirements.go:445-512 | a first check that finds a ready client, or nobody who answers, ends the wait; otherwise its rounds do, each from the state that the one before it left; without a status check by somebody else the wait never sleeps, never reaches a client by polling, and ends in its first round |
| `SyncWait.BeaconReadinessIsNoticed` | shared/services/requirements.go:479-490 | a round in time ends the wait with a ready client exactly if the last check is more than a minute old and a client answers that it is not syncing |
| `SyncWait.BeaconRefreshIsExact` | shared/services/requirements.go:473-490 | when a round ends before its poll: timed out, or with nobody who answers; a round that is not due always polls |
| `SyncWait.FlagsAreTheLatest` | shared/services/requirements.go:479-493 | the poll goes by the answers of somebody else's check, else of the refresh that was due, else by the flags that the round found |
| `SyncWait.BeaconPollIsExact` | shared/services/requirements.go:492-508 | every reply of the manager to the poll, and the state that a syncing client leaves for the next round |
| `SyncWait.BeaconNeverSleeps` | shared/services/requirements.go:471-510 | with no client ready an undisturbed round ends the wait, and one in time that is not due ends it with the manager's error |
| `SettingsModel.ChangeNetworkKeepsTags` | shared/services/config/stader-config.go:559-585 | a network change keeps the type of every parameter |
| `SettingsModel.NetworkChangeMovesDefaults` | shared/types/config/parameter.go:56-76 | a network change moves exactly what sits on the old network's default to the new one's |
| `SettingsModel.NetworkChangedBack` | shared/services/config/stader-config.go:559-585 | changing the network and back restores a parameter exactly if it was on its default, or not on the other network's |
| `EditorScreen.ShownIsAccepted` | stader-cli/service/config.go:52-60 | what the screen shows can be written back if and only if the network is one that it can show |
| `EditorScreen.ShowingIsStable` | stader-cli/service/config.go:52-109 | showing, writing back and showing again gives the same value under every key, except that MEV-Boost is on, if and only if no client name has a capital inside a word |
| `EditorScreen.SecondSaveDecides` | stader-cli/service/configFallback.go:36-49 | after two saves an open field is what the second makes of it alone, for any two networks; a field switched off is what the first left, moved to the new default if it sat on the old network's |
| `EditorScreen.GroupsMerge` | stader-cli/service/configMEVBoost.go:91-102 | the container fields are taken from the selected key group, and shown under both groups afterwards |
| `EditorScreen.SavedIsShown` | stader-cli/service/configMonitoring.go:63-103 | a saved setting is shown again exactly when its switch is on or it was shown before |
| `EditorScreen.SavingAgainChangesNothing` | stader-cli/service/config.go:200-206 | saving what is shown right after a save changes no field, not even its type, exactly where a written numeral is text |
| `EditorScreen.NetworkSaved` | stader-cli/service/config.go:52-60 | which network is saved for each name shown, and that any other name keeps the old one |
| `EditorScreen.FallbackFollowsSwitch` | stader-cli/service/configFallback.go:36-49 | with the switch on one URL of each kind is saved for Prysm and the others; with it off they change with the network only |
| `EditorScreen.MetricsFollowSwitch` | stader-cli/service/configMonitoring.go:63-103 | the monitoring fields are the settings with the switch on, and change with the network only when it is off |
| `EditorScreen.ContainerFollowsMode` | stader-cli/service/configMEVBoost.go:91-102 | the container fields are those of the selected group, and change with the network only for any other mode |
| `EditorScreen.GuardianPortIsFixed` | stader-cli/service/configMonitoring.go:34-75 | the guardian's port is always shown as 9104, and what is entered for it changes nothing that is saved |
| `WizardScreen.WizardReadsOwnWork` | stader-cli/service/service.go:225-226 | the wizard cannot read what it wrote exactly when it wrote external clients; the configuration screen always can |
| `WizardScreen.ConfirmedUnchanged` | stader-cli/service/service.go:213-282 | confirming the wizard without a change leaves all but seven fields as they were |
| `WizardScreen.ConfirmedDrift` | stader-cli/service/service.go:219-239 | what it does to those seven: one mode for both clients, MEV-Boost on, a lower-case client, an untyped external client, and common values copied over external ones |
| `WizardScreen.UpdateWrote` | stader-cli/service/service.go:213-282 | the wizard's answer is written over a configuration that was first moved to its network; so written, with the external client's type restored, it can be read by the wizard |
| `WizardScreen.NetworkReadsBack` | stader-cli/service/service.go:213-216 | the wizard reads back the network of its answer |
| `WizardScreen.ClientsReadBack` | stader-cli/service/service.go:218-228 | it reads back the mode, and the clients and URLs of that mode as answered; those of the other mode are what they were |
| `WizardScreen.UrlsReadBack` | stader-cli/service/service.go:229-235 | the external consensus URLs are the answer's in external mode, and else what they were |
| `WizardScreen.CommonReadsBack` | stader-cli/service/service.go:237-261 | graffiti, checkpoint, doppelganger, monitoring and the use of fallbacks read back as answered in every mode |
| `WizardScreen.FallbacksReadBack` | stader-cli/service/service.go:242-259 | the fallback URLs read back as answered for the client of the selected mode, one pair for Lighthouse and Teku, and else are what they were |
| `WizardScreen.MevReadsBack` | stader-cli/service/service.go:264-273 | the MEV-Boost settings read back as answered for its mode, and else are what they were |
| `WizardScreen.WrittenExternally` | stader-cli/service/service.go:228-234 | the three external fields that the wizard never reads take the common values in external mode only |
| `WizardScreen.WrittenBesides` | stader-cli/service/service.go:220-265 | every answer sets the execution mode too and switches MEV-Boost on |
| `WizardScreen.RestIsLeft` | stader-cli/service/service.go:213-282 | every other parameter changes with the network only |
| `ConfigSession.LeavesInOneMode` | stader-cli/service/config.go:178-220 | whatever the screens did and however often they alternated, the configuration that leaves has one mode for both clients and MEV-Boost on, so neither hybrid warning of a start applies |
| `ConfigSession.StartGivesNoWarning` | stader-cli/service/service.go:561-584 | what a start loads back after such a session was saved is in one mode too, so it gives neither warning |
| `ConfigSession.WarnsOfHybridModes` | stader-cli/service/service.go:561-584 | a start warns exactly if the two clients are in different modes |
| `ConfigSession.LastScreenDecides` | stader-cli/service/config.go:196-216 | the last screen left decides whether the configuration is saved |
| `ConfigSession.SessionIsItsScreens` | stader-cli/service/config.go:178-220 | a session passes from screen to screen, each on what the one before it made, and the first that is left for good, cannot be opened or does not accept its settings decides how it ends |
| `ConfigSession.AcceptedIfShown` | stader-cli/service/configConsensus.go:112-154 | settings of the types shown are accepted exactly when the network could be shown, and never fail otherwise |
| `ConfigSession.ConfigurationRestoresTypes` | stader-cli/service/configConsensus.go:112-114 | a visit to the configuration screen leaves a configuration that both screens can read |
| `ConfigSession.SessionIsSafe` | stader-cli/service/config.go:178-220 | from a well-typed configuration no type assertion fails in any alternation of screens, except exactly when the wizard is left for the other screen with a network that screen cannot show |
| `ConfigSession.LoadedSessionIsSafe` | stader-cli/service/config.go:145-151 | the same for every configuration that was loaded from a file |
| `ConfigSession.ZhejiangCrashes` | stader-cli/service/config.go:114-119 | picking Zhejiang in the wizard and going on to the other screen crashes, if the UI returns no string for a network it was not shown |
| `SavedConfig.LoadedIsReadable` | shared/types/config/parameter.go:91-151 | whatever a file says, a configuration that loads has declared types and can be read by both screens |
| `SavedConfig.LoadInvertsSave` | shared/types/config/parameter.go:79-151 | loading a saved parameter gives the value back with its type if and only if it is acceptable: of the declared type, within the text rules, and blank only where it may be or that is the default |
| `SavedConfig.SavedLoads` | shared/services/config/stader-config.go:711-792 | a configuration survives saving and loading if and only if all its values are acceptable |
| `SavedConfig.NumeralLoads` | shared/types/config/parameter.go:104-109 | a numeral left as text loads as the decimal number it shows exactly when it fits and has no leading zero before more than one octal digit |
| `SavedConfig.LoadRestoresType` | shared/types/config/parameter.go:128-141 | the untyped external client of the wizard loads with its type |
| `SavedConfig.UntouchedSave` | stader-cli/service/config.go:52-109 | saving what is shown leaves a parameter's text alone exactly for the fields of a stated list of conditions |
| `SavedConfig.UntouchedSaveLoads` | stader-cli/service/config.go:205-216 | such a field is loaded back exactly, type included |
| `SavedConfig.MissingLoadsDefault` | shared/services/config/stader-config.go:729-792 | a parameter missing from the file loads as the default of the file's network, mainnet if it names none |
| `SavedConfig.TextLoads` | shared/types/config/parameter.go:111-127 | a text loads exactly if it follows the rules, or the default is empty, and fits; as itself, or as the default where it must not be blank |
| `SavedConfig.NumberLoads` | shared/types/config/parameter.go:104-109 | a number in the file loads exactly if it fits: below 65536 for ports and peer limits, in 64 bits for cache and heap sizes |
| `SavedConfig.SwitchLoads` | shared/types/config/parameter.go:110-111 | a switch is true for six texts and false for six others, and refuses the rest |
| `SettingsInPlace.ReachedIsUpdated` | stader-cli/service/config.go:52-85 | the assignments in order, between the checks that can stop them, add up to the whole update |
| `SettingsInPlace.StopsForItsOutcome` | stader-cli/service/configConsensus.go:140-152 | the check after which an update stops decides between success, error and panic |
| `SettingsInPlace.StopsHalfway` | stader-cli/service/config.go:52-85 | wherever an update stops, exactly the open parameters whose assignment was come to have been written, parameter by parameter; the rest shows the network change only |
| `SettingsInPlace.StaderConfig.UpdateExecutionClient` | stader-cli/service/configExecution.go:29-84 | writes the mode and the external URLs, and the local client's fields only past its assertion |
| `SettingsInPlace.StaderConfig.UpdateConsensusClient` | stader-cli/service/configConsensus.go:99-191 | panics before, or fails after, exactly these fields are written |
| `SettingsInPlace.StaderConfig.UpdateFallbackClient` | stader-cli/service/configFallback.go:36-49 | writes the switch before asserting it, then the guarded fields and their Prysm copies |
| `SettingsInPlace.StaderConfig.UpdateMevBoost` | stader-cli/service/configMEVBoost.go:67-105 | switches MEV-Boost on and writes up to the assertion that fails |
| `SettingsInPlace.StaderConfig.UpdateMonitoring` | stader-cli/service/configMonitoring.go:63-103 | writes the switch, and the guarded fields only if it is on |
| `SettingsInPlace.UpdateConfigFromUISetting` | stader-cli/service/config.go:52-85 | the result is a new object with the updated values; the original keeps its own parameters, but its sections show everything written before the update stopped, even when it stopped with an error |
| `SettingsInPlace.UpdateConfig` | stader-cli/service/service.go:213-282 | the same for the wizard's answer |
| `SettingsInPlace.CopyOwnsItsParameters` | shared/services/config/stader-config.go:67-137 | a copy of the configuration owns the modes, clients and switches, the reconnect delay and its own metrics ports |
| `SettingsInPlace.CopySharesSections` | shared/services/config/stader-config.go:67-137 | it shares the network and every parameter of a section with the original |
| `HeadlessConfig.ConfigureHeadless` | stader-cli/service/service.go:414-484 | succeeds exactly when every flag is accepted, and then each parameter has its flag's value or is unchanged |
| `HeadlessConfig.FlagKeepsKind` | stader-cli/service/service.go:448-480 | no flag changes the type of a parameter |
| `HeadlessConfig.FlagIsSavedAsGiven` | stader-cli/service/service.go:448-480 | what an accepted flag saves is its own text, exactly unless it is a 16-bit number out of range |
| `HeadlessConfig.FlagsRefused` | stader-cli/service/service.go:448-480 | exactly choices that are not offered and texts that are too long are refused |
| `HeadlessConfig.NetworkFlagKeepsDefaults` | stader-cli/service/service.go:434-480 | a flag for another network leaves the parameters on the old network's defaults |
| `HeadlessConfig.LoadConfig` | stader-cli/service/service.go:402-411 | in headless mode no configuration is returned, and one is saved exactly when the flags are accepted and saving works |
| `HeadlessConfig.ConfigureWithFlags` | stader-cli/service/config.go:146-151 | the command crashes exactly when it has saved the flags |
| `HeadlessConfig.WithoutFlags` | stader-cli/service/config.go:145-151 | without flags the command is the session on the loaded file and crashes only as that does |
| `EventStream.NextIsLawful` | stader-lib/contracts/erc20.go:469-506 | one call takes nothing or the first pending log; it says yes exactly with that log's event; a no without an error has the subscription over without an error and the queue empty, and a new error is the subscription's own or that of the malformed log it took |
| `EventStream.PickDecides` | stader-lib/contracts/erc20.go:489-505 | whatever happened before it, a pick of a queued log delivers the first or fails on it, a pick of the subscription's error makes that the iterator's error, and a pick of its end without one delivers what is queued first |
| `EventStream.DrainsWhenDone` | stader-lib/contracts/erc20.go:475-488 | once the subscription is over, as many calls as there are queued logs deliver them all |
| `EventStream.FailureIsFinal` | stader-lib/contracts/erc20.go:470-473 | a failed iterator stays as it is and says no forever |
| `EventStream.DeliversInOrder` | stader-lib/contracts/erc20.go:469-506 | for every schedule and number of calls the events are the first logs in order, none skipped or repeated; at most one log is lost, the malformed one the iterator failed on |
| `EventStream.CompleteWhenAllQueued` | stader-lib/contracts/erc20.go:475-488 | after a no without an error everything was delivered exactly if everything had been queued before the subscription ended |
| `EventStream.SinkInOrder` | stader-lib/contracts/erc20.go:567-592 | for every schedule the sink receives the first logs in order, and at most one taken log has not reached it |
| `EventStream.ReturnsForAReason` | stader-lib/contracts/erc20.go:574-590 | the watcher returns only for the user's quitting, the subscription's end with its error, or a malformed log with its error |
| `EventStream.PicksAct` | stader-lib/contracts/erc20.go:567-592 | each pick that is possible does what it is for, and one that is not does nothing |
| `EventStream.WatcherDelivers` | stader-lib/contracts/erc20.go:567-592 | a watcher that then takes and pushes as often as logs are queued hands them all to the sink |
| `EventStream.ApprovalIterator.CallNext` | stader-lib/contracts/erc20.go:469-506 | the iterator's fields and channels change as the specification says |
| `EventStream.WatchApproval` | stader-lib/contracts/erc20.go:567-592 | the goroutine's loop with its inner select does what the specification says |
| `Paging.GetAllValidatorsInfoByOperator` | stader-lib/node/operator.go:121-140 | the pages before the first empty one, or the error of the first failing one, in as many calls |
| `Paging.AllPagesAreTheList` | stader-lib/node/operator.go:124-137 | on a registry that serves a list in blocks of 100 the first empty page is found for every length, multiples of 100 included, and the pages before it are the list |
| `Paging.GetOperatorsValidators` | stader-lib/node/operator.go:121-140 | the fetch returns exactly the list, in one call more than its length divided by 100, rounded up |
| `Numerals.ReadsDecimal` | stader-cli/node/claim-sp-rewards.go:102 | a digit string reads as the decimal number it shows exactly when it has no leading zero and fits in 64 bits, or denotes less than 8 |
| `Numerals.ParseInvertsDecimal` | shared/types/config/parameter.go:104-105 | printing and parsing a 64-bit number gives it back |
| `Numerals.ConversionIsFaithful` | stader-cli/node/claim-sp-rewards.go:111 | comparing after the conversion to a signed number is comparing numbers on the non-negative half |
| `CycleSelection.CycleListsAreJoined` | stader-cli/node/claim-sp-rewards.go:92-99 | comma-joined digit strings have the expected format and are split into themselves |
| `CycleSelection.CycleListsAreOnlyJoined` | stader-cli/node/claim-sp-rewards.go:92-99 | only comma-joined digit strings have that format |
| `CycleSelection.ReadPrompt` | shared/utils/cli/prompt.go:32-48 | the answer is that of the first line in the expected format, with the lines after it left over, a blank line included; without such a line it is blank with nothing left |
| `CycleSelection.AnswersAreGiven` | stader-cli/node/claim-sp-rewards.go:91-127 | the answers are those of the lines in the format, in order and none left out, the end of the input being a blank one |
| `CycleSelection.CheckElements` | stader-cli/node/claim-sp-rewards.go:99-122 | all elements are valid exactly if each parses and names an unclaimed cycle; matching ones are added even when others are not valid |
| `CycleSelection.SelectCycles` | stader-cli/node/claim-sp-rewards.go:71-128 | the loop terminates with the cycles of all answers up to the accepted one |
| `CycleSelection.ClaimedExactly` | stader-cli/node/claim-sp-rewards.go:100-122 | a cycle is claimed if and only if it is unclaimed so far and some answer, rejected or not, asks for it |
| `CycleSelection.AcceptedAnswerIsClaimed` | stader-cli/node/claim-sp-rewards.go:93-127 | the claimed set is part of the unclaimed cycles, all of them after a blank answer, and else holds every cycle that the accepted answer asks for |
| `CycleSelection.EndOfInputClaimsAll` | stader-cli/node/claim-sp-rewards.go:92-97 | input that ends before any line is accepted claims every cycle, whatever its rejected lines asked for |
| `CycleSelection.AcceptedElement` | stader-cli/node/claim-sp-rewards.go:102-121 | an accepted element claims the cycle whose decimal number it shows exactly if it has no leading zero or denotes less than 8 |
| `CycleSelection.TooLargeIsMinusOne` | stader-cli/node/claim-sp-rewards.go:102-121 | an element beyond 64 bits is not valid, and is looked up as cycle -1 |
| `CycleSelection.OctalSurprise` | stader-cli/node/claim-sp-rewards.go:102-121 | 010 claims cycle 8, and the rejected 08 adds cycle 0 |
| `MountPoint.FindPartition` | stader-cli/service/service.go:1664-1671 | the first partition with the longest mount point that is a prefix of the path, and none exactly when no mount point is |
| `MountPoint.OrderDoesNotMatter` | stader-cli/service/service.go:918-925 | the chosen mount point does not depend on the order of the partitions |
| `MountPoint.FoundIsPartitionOf` | stader-cli/service/service.go:1667 | the search finds the partition of the path if and only if some mount point is a prefix of it, and no mount point that merely shares characters with it is longer than every one that it is under |
| `MountPoint.SiblingIsMisplaced` | stader-cli/service/service.go:1667 | a sibling directory that only shares a name's beginning is placed on the wrong mount |
| `Text.TitleOfLowerOfTitle` | stader-cli/service/configConsensus.go:33-34 | titling again what was titled and lowered changes nothing exactly for names without a capital inside a word |
| `Text.LowerOfTitle` | stader-cli/service/configExecution.go:51 | lowering a titled name returns the name exactly if it was lower case |

## Left out

- `service terminate` and a changed project name, which remove or hide the old container's record, are not commands of the gate's histories.
- `docker pause` and containers started by hand or through other compose files are not actions of the gate's model.
- An unselectable consensus client configuration is modelled like an unparsable pending image: the gate answers with an error either way.
- Configuration validation, the unsupported-client check and the metrics templates of a start, which end it before the gate.
- GateHost.Host.Operate: commands run one after the other; settings saved by another command during a start are covered by the transition system (`DisciplinedRunIsSafe`, `SettingsSavedDuringStart`), two starts at once are not. A start there declines the confirmation and is given without the flag; both are steps of the transition system (`OverrideIsExact`).
- SlashingGate.StartIsExact: what is exact is one start, from its first step until the command is idle again; longer histories are covered by `DisciplinedRunIsSafe` and `PreparedRunIsSafe`.
- Histories, schedules, turns, input lines and polling rounds are finite; what they say holds for every finite piece of an endless run.
- SyncWait.RequireEthClientSynced: the environment is given for five rounds, which the timeout of 16 seconds never uses up.
- The block timestamp's conversion from unsigned to signed, sync progress percentages and log texts.
- Concurrent callers of a manager: operations and status checks are atomic steps, as one caller sees them.
- Managers.BeaconClientManager.RunFunction: the three copies of the function for none, one and two results are one generic method.
- A third initial screen name, for which `handleUI` returns at once, does not occur.
- The UI library and its key names are not part of this model: keys are distinct, and the configuration screen is assumed to return each setting with the type it was shown with.
- Parameters that neither screen edits, descriptions, and the order of assignments between two checks of an update.
- SettingsModel.ChangeNetworkKeepsTags: defaults are assumed to have their parameter's type; 16-bit and 64-bit numbers are one kind of number, so a default of the wrong width is not seen.
- Regular expressions, maximal lengths, unusual spellings of numbers and floating point texts of parameters are arbitrary rules; the YAML layer, migrations and `UpdateDefaults` are not modelled.
- `strings.ToLower` and `strings.Title` beyond ASCII.
- EventStream.DeliversInOrder: the partly filled event that a failed unpacking leaves behind is no event here, and channels have no capacity.
- Paging.GetAllValidatorsInfoByOperator: a registry without any empty or failing page would never end the loop, so one such page is required.
- The reward table, whose unparsable amounts end the selection before its first prompt, and the order in which Go walks the set of cycles.
- Lines that a prompt has read ahead from a pipe, which the next prompt does not see.
- Paths are compared with `/` as the separator; disk usage and free space are not modelled.
- Wallet, deposit, send and exit commands, contract wrappers and all other generated bindings, which follow the same templates or are linear guards around unseen clients.
