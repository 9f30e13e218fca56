# Verified models of the UltimaScraper runtime

Dafny models of the parts of UltimaScraper that change state step by step and may fail at any
step, with proofs of what they promise. `dafny verify dfyconfig.toml` checks everything.

| file | models |
|---|---|
| `Redaction.dfy` | the redactor of run logs |
| `EnvFile.dfy`, `EnvEdits.dfy`, `Render.dfy` | the `.env` file: written, parsed, edited by upgrades |
| `Deployments.dfy`, `ServiceChanges.dfy`, `Rollout.dfy` | upgrades and service changes on a host, one and several |
| `Operations.dfy` | which operations may run at once, and what runs of upgrades leave while others run |
| `Membership.dfy` | joining clusters, syncing, enrolling and re-pinning |
| `Signals.dfy` | the launcher's signals, and which restarts are carried out |
| `Launcher.dfy` | the process supervisor with selective restarts |
| `Streams.dfy` | the line and frame loops of the WebUI client |
| `Base64.dfy`, `Tickets.dfy` | tickets and cluster invites |
| `Backfill.dfy` | paging over content rows, dry run and apply |
| `TimeIntegral.dfy` | time-weighted means and quarter windows |
| `Seeding.dfy` | batch ranges and id arithmetic of the generated catalog |
| `Recording.dfy` | the sampling schedule and its summary |
| `Hosts.dfy` | nodes grouped into hosts |
| `Versions.dfy` | version order and update offers |
| `Limiter.dfy` | the sign-in limiter |
| `Basics.dfy`, `Text.dfy` | shared types, and splitting and stripping of text |

How the environment is modelled: a host is a map of files on which every command may succeed,
fail, lose its connection or be cancelled, and a write that does not finish may leave any content
in its file (`Deployments.World` records every state passed through). While a command runs, the
other runs may change every folder and record but those of the run it belongs to; `Operations`
proves that they change no others. What other machines answer is an arbitrary parameter. Clocks never go back and may advance at every reading. Any start of a
process may raise. Code that works step by step is a method over a class or a loop, proved
against a function of its inputs; the lemmas are about those functions and about every run.

What the proofs brought to light, each with its exact condition:

- A start that passed its checks and then raises in `_launch` leaves its deployments busy for good
  (`Operations.BusyExactly`, `Operations.LostForGood`).
- A deployment requested twice in one multi-upgrade run may have been upgraded although a later
  turn failed (`Operations.NamedTwice`, `Operations.NamedAgain`).
- An upgrade tried again after a failed roll-back copies the files over their good backups: an
  original survives exactly when its file was intact (`Deployments.BackUpAgain`,
  `Deployments.UpgradeTwice`, `Deployments.DamagedLost`).
- A value with a line boundary in it (any that `str.splitlines` knows) breaks the `.env` round trip,
  and nothing else does (`Render.RenderedParses`); the checks before it look for two of them only
  (`Render.SeparatorLost`).
- Redaction can show a secret that is part of the word `[REDACTED]` (`Redaction.CleanExactly`).
- A selective restart is carried out exactly when the supervisor reads the targets after its signal
  and before any other signal or clearing (`Signals.CarriedOutExactly`): of two before one poll the
  first is lost (`Signals.Overwritten`), and so is one between the read and the clearing
  (`Signals.TooLate`).
- A sync pins one connection anew each time when it stands for two members that report different
  fingerprints (`Membership.ClusterMembership.SyncTwice`, `Membership.Disagreeing`).
- Content rows with an id of 0 or less would never be read (`Backfill.TargetRows`).
- `version_key` and PEP 440 disagree on releases of more than three components that differ only in
  trailing zeros, unless the longer one is the later version anyway (`Versions.AgreeExactly`).
- A fully trimmed address needs more than one pass when a blank stands before its last slashes
  (`Tickets.UrlSettles`, `Tickets.NotSettled`).
- An invite created at an entry URL with a path, query or fragment leads to another address
  (`Tickets.EntryUrlRoundTrip`).
- When a backend reports the bare name "local" as its address, the WebUI's own node can join a
  placeholder on that host (`Hosts.UnmixedExactly`, `Hosts.MixesOnce`).

## Model

| member | source | states |
|---|---|---|
| `Redaction.ReplaceCleans` | src/UltimaScraperWeb/ultima_webui_server/installer/runner.py:213-216 | Replacing one secret brings back no other maskable secret, and leaves none of its own. |
| `Redaction.RedactedIsClean` | src/UltimaScraperWeb/ultima_webui_server/installer/runner.py:213-216 | After redaction no maskable secret occurs in the text, in any order of replacement and whatever the other secrets look like. |
| `Redaction.CleanExactly` | src/UltimaScraperWeb/ultima_webui_server/installer/runner.py:213-216 | For secrets without square brackets: redaction is clean on every text if and only if no secret is part of the word it writes. |
| `Redaction.WholeSecretMasked` | src/UltimaScraperWeb/ultima_webui_server/installer/runner.py:213-216 | With longer secrets first, a secret standing alone becomes exactly one mask, even when other secrets are parts of it. |
| `Redaction.ShorterFirstLeaks` | src/UltimaScraperWeb/ultima_webui_server/installer/runner.py:214 | With shorter secrets first the rest of a longer secret would stay readable: why the order matters. |
| `Redaction.Redactor.Add` | src/UltimaScraperWeb/ultima_webui_server/installer/runner.py:210-211 | Keeps exactly the values of four characters or more, on top of those known. |
| `Redaction.Redactor.Call` | src/UltimaScraperWeb/ultima_webui_server/installer/runner.py:213-216 | Returns the text redacted in some longest-first order, so free of every maskable secret. |
| `Redaction.RunLog.Emit` | src/UltimaScraperWeb/ultima_webui_server/installer/runner.py:772-773 | A recorded event holds no maskable secret that was known when it was emitted; earlier events stay as they are. |
| `Streams.CompleteCarry` | src/UltimaScraperWeb/webui/src/api/jobs.ts:221-224 | Carrying the last piece over completes, chunk by chunk, exactly the frames of the whole text. |
| `Streams.UnterminatedIgnored` | src/UltimaScraperWeb/webui/src/api/jobs.ts:219-233 | Text after the last delimiter is never handled, wherever the stream ends. |
| `Streams.EndedEarly` | src/UltimaScraperWeb/webui/src/api/jobs.ts:224-231 | A call that an event ended within the text so far ends the same on every longer text. |
| `Streams.DeleteJobs` | src/UltimaScraperWeb/webui/src/api/jobs.ts:213-237 | However the stream is cut into chunks, the events delivered, their order and the outcome are those of the whole text. |
| `Streams.HadResultsMeansDelivered` | src/UltimaScraperWeb/webui/src/api/network.ts:276-280 | Results are reported as had if and only if one was delivered. |
| `Streams.AnalyzeProxyLevel` | src/UltimaScraperWeb/webui/src/api/network.ts:246-291 | However the stream is cut, also within a blank line, the callbacks and the answer are those of the complete frames of the whole text. |
| `EnvFile.SplitUnlines` | src/UltimaScraperWeb/ultima_webui_server/installer/runner.py:243-243 | Lines without a line boundary come back from the text they are joined to. |
| `EnvFile.EnvValues` | src/UltimaScraperWeb/ultima_webui_server/installer/runner.py:240-247 | The line loop fills the dict that the line-by-line specification gives. |
| `EnvFile.ParseEnv` | src/UltimaScraperWeb/ultima_webui_server/installer/runner.py:1643-1650 | The same for the stripping parser. |
| `EnvFile.WrittenLineReads` | src/UltimaScraperWeb/ultima_webui_server/installer/render.py:287-293 | A line the writer writes, quoted or not, is read by both parsers as the setting it was written for, if the value is one line. |
| `EnvFile.EnvRoundTrip` | src/UltimaScraperWeb/ultima_webui_server/installer/render.py:272-293 | For all settings that can be written, each parser gives back exactly the map written if and only if no value has a line boundary in it. |
| `EnvEdits.SetText` | src/UltimaScraperWeb/ultima_webui_server/installer/runner.py:1653-1657 | What the grep, sed or printf command makes of finished lines. |
| `EnvEdits.SetKept` | src/UltimaScraperWeb/ultima_webui_server/installer/runner.py:1653-1657 | Setting a key in a well-kept file keeps it well-kept, and parses as the map with that key set. |
| `EnvEdits.DropKept` | src/UltimaScraperWeb/ultima_webui_server/installer/runner.py:63-65 | Deleting keys in a well-kept file keeps it well-kept, and parses as the map without them. |
| `EnvEdits.EditsParse` | src/UltimaScraperWeb/ultima_webui_server/installer/runner.py:1063-1067 | Any sequence of such edits of a well-kept file parses as the same edits of what the file parsed as. |
| `EnvEdits.WrittenKept` | src/UltimaScraperWeb/ultima_webui_server/installer/render.py:272-283 | A rendered file is well-kept when its values have no line boundary. |
| `Render.ImageWithoutTag` | src/UltimaScraperWeb/ultima_webui_server/installer/runner.py:1061-1061 | The image setting is the reference without its tag, also when the registry has a port. |
| `Render.EnvironmentKeyed` | src/UltimaScraperWeb/ultima_webui_server/installer/render.py:242-271 | The keys render writes are all different and all names both parsers and the edits understand. |
| `Render.RenderedParses` | src/UltimaScraperWeb/ultima_webui_server/installer/render.py:211-293 | What render writes of a spec it accepts parses back, in both parsers, as the environment it was given, if and only if no value has a line boundary. |
| `Render.SeparatorLost` | src/UltimaScraperWeb/ultima_webui_server/installer/render.py:226-234 | Such values are accepted: any accepted spec with an existing Redis store is accepted too with a line separator in the password, and no longer parses back. |
| `Render.UpgradeParses` | src/UltimaScraperWeb/ultima_webui_server/installer/runner.py:1059-1067 | After an upgrade the parsed map is the old one with USR_VERSION and USR_IMAGE set and the legacy image keys gone; every secret is unchanged. |
| `Render.UpgradedTwice` | src/UltimaScraperWeb/ultima_webui_server/installer/runner.py:1059-1067 | A second upgrade replaces what the first one set and nothing else. |
| `Render.UpgradesParse` | src/UltimaScraperWeb/ultima_webui_server/installer/runner.py:1059-1067 | The same over any number of upgrades: only the last one shows. |
| `Render.InstalledAndUpgraded` | src/UltimaScraperWeb/ultima_webui_server/installer/runner.py:1059-1067 | Every other key an install was rendered with keeps its value through any number of upgrades. |
| `Deployments.BackUp` | src/UltimaScraperWeb/ultima_webui_server/installer/runner.py:1053-1057 | Copying every file changes only the backups, at every point of failure, and done leaves each file backed up. |
| `Deployments.LiveWrite` | src/UltimaScraperWeb/ultima_webui_server/installer/runner.py:1062-1071 | Whatever a failing write leaves in one live file, every original still has its backup. |
| `Deployments.SwitchVersion` | src/UltimaScraperWeb/ultima_webui_server/installer/runner.py:1059-1075 | Up to any failure every original has its backup; done, the files are those of the requested version. |
| `Deployments.RollBack` | src/UltimaScraperWeb/ultima_webui_server/installer/runner.py:1244-1270 | Each original stays in place or in its backup at every step; when it says so, the files are as before the upgrade, byte for byte. |
| `Deployments.Settle` | src/UltimaScraperWeb/ultima_webui_server/installer/runner.py:1087-1113 | The state file and the record name the new version, or the run ends as unrecorded with the records as before; the backups go only afterwards. |
| `Deployments.Upgrade` | src/UltimaScraperWeb/ultima_webui_server/installer/runner.py:1021-1115 | For every point of failure, and whatever other runs change elsewhere meanwhile: until the clean-up each original content is in place or in its backup, and from then on every state runs the new version; undone, all files are as before and nothing is recorded; done, files, state file and record are on the new version. Each change it makes is to its own folder or record. |
| `Deployments.BackUpAgain` | src/UltimaScraperWeb/ultima_webui_server/installer/runner.py:1053-1057 | Backing up again, from any state in which every original is in place or in its backup: once all is copied, the originals are all there if and only if every file was intact. |
| `Deployments.UpgradeTwice` | src/UltimaScraperWeb/ultima_webui_server/installer/runner.py:1021-1115 | A second upgrade after one that could not be undone: once it has copied the files, and once it is undone in its turn, the originals are there if and only if the files were intact when it began. |
| `Deployments.DamagedLost` | src/UltimaScraperWeb/ultima_webui_server/installer/runner.py:1244-1270 | The state left by a roll-back that stops at any one of the files, with any content written to it: once every file has been copied again, the original of that one is gone. |
| `ServiceChanges.ChangeServices` | src/UltimaScraperWeb/ultima_webui_server/installer/runner.py:1117-1242 | The same promise for the .env of a change of services, up to the removal of its backup, and what is recorded. |
| `ServiceChanges.SettleServices` | src/UltimaScraperWeb/ultima_webui_server/installer/runner.py:1219-1240 | The new services are recorded once they run; before that the records are as they were. |
| `ServiceChanges.ServicesParse` | src/UltimaScraperWeb/ultima_webui_server/installer/runner.py:1172-1186 | Afterwards a well-kept .env parses as before with the profiles of the wanted services, and with the certificate settings when a WebUI is added. |
| `Rollout.UpgradeInTurn` | src/UltimaScraperWeb/ultima_webui_server/installer/runner.py:720-731 | For any list of requests, while other runs work elsewhere: every deployment whose last turn so far ran is on that order's version in record, state file and files; those not reached are untouched; and every change the run makes is to a folder or record of a deployment it has reached. |
| `Rollout.OwnStepKeeps` | src/UltimaScraperWeb/ultima_webui_server/installer/runner.py:720-731 | Whatever a turn does to its own folder and record, complete or not, keeps what is so of the other deployments of the run. |
| `Rollout.ForeignStepKeeps` | src/UltimaScraperWeb/ultima_webui_server/installer/runner.py:720-731 | So does a change to a folder and a record that are none of the run's. |
| `Rollout.TurnOver` | src/UltimaScraperWeb/ultima_webui_server/installer/runner.py:720-731 | A turn that ran is one more deployment on its new version, made from the files it had when the turn began. |
| `Rollout.EnvOnNewVersion` | src/UltimaScraperWeb/ultima_webui_server/installer/runner.py:720-731 | The parsed .env of a deployment before the failure names the requested version too, if the file was well-kept. |
| `Operations.AlwaysExclusive` | src/UltimaScraperWeb/ultima_webui_server/installer/runner.py:676-757 | Under every interleaving the busy deployments are the disjoint sets of the unreleased runs, and those of starts that raised. |
| `Operations.BusyExactly` | src/UltimaScraperWeb/ultima_webui_server/installer/runner.py:715-757 | The busy deployments are exactly those of unreleased runs if and only if no start that passed its checks raised in its launch. |
| `Operations.LostExactly` | src/UltimaScraperWeb/ultima_webui_server/installer/runner.py:715-734 | Deployments stay busy for good if and only if some such start was lost along the way. |
| `Operations.BusyRefuses` | src/UltimaScraperWeb/ultima_webui_server/installer/runner.py:676-684 | While a deployment is busy every request naming it is refused and changes nothing. |
| `Operations.LostForGood` | src/UltimaScraperWeb/ultima_webui_server/installer/runner.py:676-684 | A deployment whose start raised refuses every later operation, whatever happens. |
| `Operations.InOrderStep` | src/UltimaScraperWeb/ultima_webui_server/installer/runner.py:703-734 | Every start, single change, turn, end and release of any run keeps: each deployment that a run of upgrades passed is on the requested version in record, state file and files, and each one ahead is as at its start. That a turn which ran is on the new version is what UpgradeTurn proves of the upgrade. |
| `Operations.FailedRunInOrder` | src/UltimaScraperWeb/ultima_webui_server/installer/runner.py:720-731 | After any interleaving, a failed run that names no deployment twice left those before its failure on the requested version, made from the files of its start, and the folder and record of those after it as they were. |
| `Operations.AlwaysInOrder` | src/UltimaScraperWeb/ultima_webui_server/installer/runner.py:703-757 | The same for every run in every reachable state. |
| `Operations.FailedRunVersions` | src/UltimaScraperWeb/ultima_webui_server/installer/runner.py:720-731 | Then record, host state file and parsed .env of each deployment before the failure all name the requested version, where the .env was well-kept. |
| `Operations.OthersApart` | src/UltimaScraperWeb/ultima_webui_server/installer/runner.py:676-757 | Whatever event of another run comes, each run finds its folders and records as it left them, and its own progress: what an upgrade is promised while its commands run. |
| `Operations.ChangeWorks` | src/UltimaScraperWeb/ultima_webui_server/installer/runner.py:720-731 | Each change that an upgrade makes is a step of its run, and nothing else. |
| `Operations.UpgradeTurn` | src/UltimaScraperWeb/ultima_webui_server/installer/runner.py:720-731 | The upgrade itself among the others: wherever their starts, steps, ends and releases fall between and after its changes, when it returns its turn is over, on the new version if it says so and failed if not. |
| `Operations.NamedTwice` | src/UltimaScraperWeb/ultima_webui_server/installer/runner.py:711-711 | A deployment requested twice in one run is not untouched after a failure between its two turns: the case the claim must leave out. |
| `Operations.NamedAgain` | src/UltimaScraperWeb/ultima_webui_server/installer/runner.py:711-731 | In every reachable state of every run, a deployment that is named again ahead is not as it was when the run started, if the last of its turns passed brought it to another version than it had. |
| `Operations.Installer.StartUpgrades` | src/UltimaScraperWeb/ultima_webui_server/installer/runner.py:703-734 | Starting several upgrades is the event of the state machine, with its refusals. |
| `Operations.Installer.StartOperation` | src/UltimaScraperWeb/ultima_webui_server/installer/runner.py:736-757 | Starting one operation is the event of the state machine, with its refusals. |
| `Operations.Installer.Release` | src/UltimaScraperWeb/ultima_webui_server/installer/runner.py:733-733 | The done callback releases exactly the run's deployments. |
| `Membership.ClusterMembership.PinnedCertificate` | src/UltimaScraperWeb/ultima_webui_server/pinning.py:62-71 | A certificate is pinned if and only if the one presented has the expected fingerprint. |
| `Membership.ClusterMembership.AddMember` | src/UltimaScraperWeb/ultima_webui_server/cluster_membership.py:353-385 | A member gets a new connection if and only if none stands for it, it has an address that is accepted and a fingerprint, and its certificate was fetched before or is the one now presented; the connection is pinned to that one. Each other end says which of these failed. |
| `Membership.ClusterMembership.Repin` | src/UltimaScraperWeb/ultima_webui_server/cluster_membership.py:536-546 | A pinned connection is pinned anew to a member's newly reported certificate, or stays as it is. |
| `Membership.QuietExactly` | src/UltimaScraperWeb/ultima_webui_server/cluster_membership.py:393-417 | In the state a sync leaves behind, another has nothing to do if and only if the members that one pinned connection stands for report one fingerprint. |
| `Membership.ClusterMembership.SyncMember` | src/UltimaScraperWeb/ultima_webui_server/cluster_membership.py:399-415 | One turn of the loop: adds, re-pins, or leaves the connections alone. |
| `Membership.ClusterMembership.SyncMembers` | src/UltimaScraperWeb/ultima_webui_server/cluster_membership.py:399-415 | After the loop, with every certificate fetched, no member is left to add and each pinned connection has the fingerprint of the last member it stood for. |
| `Membership.ClusterMembership.Enrol` | src/UltimaScraperWeb/ultima_webui_server/cluster_membership.py:419-475 | Tries at most once in ten minutes, stores a credential if and only if it got a token, and leaves other clusters' credentials alone. |
| `Membership.ClusterMembership.EnrolOverHttps` | src/UltimaScraperWeb/ultima_webui_server/cluster_membership.py:477-534 | A credential got this way has the certificate it was redeemed over pinned, with a reported fingerprint. |
| `Membership.ClusterMembership.Join` | src/UltimaScraperWeb/ultima_webui_server/cluster_membership.py:289-341 | Joining connects the reachable members of the answer, pinned to reported fingerprints, and stores the token with the entry address and the certificate it was redeemed over; without an answer that names a cluster nothing changes. |
| `Membership.ClusterMembership.Sync` | src/UltimaScraperWeb/ultima_webui_server/cluster_membership.py:387-417 | A whole sync: connections only grow or are re-pinned to reported fingerprints, and stored ids stay unique. |
| `Membership.ClusterMembership.SyncTwice` | src/UltimaScraperWeb/ultima_webui_server/cluster_membership.py:387-417 | After a sync that fetched every certificate, a second one with the same answer adds nothing, however it ends, and re-pins nothing if and only if members sharing a pinned connection agree on their fingerprint. |
| `Membership.Disagreeing` | src/UltimaScraperWeb/ultima_webui_server/cluster_membership.py:399-415 | Any pinned connection that stands for two members with different fingerprints: the state after a sync of the two, in which another has something to do. |
| `Membership.Run` | src/UltimaScraperWeb/ultima_webui_server/cluster_membership.py:289-546 | Over every run of joins and syncs each pinned fingerprint was reported, and no two connections come to share a stored backend id. |
| `Launcher.StartWriters` | main.py:113-138 | All the database writers run, or none of those started is left. |
| `Launcher.StartWebUI` | main.py:740-788 | What runs of the WebUI is what is returned; raising, it leaves nothing running. |
| `Signals.ShutdownRequest.Handle` | main.py:204-224 | The flags a signal sets; the runtime is to end once a signal asked for it, and to restart in place if and only if the last such signal was a restart. |
| `Signals.ShutdownRequest.Take` | main.py:440-443 | The targets read are those of the signals up to the read, and the flag and the targets are cleared one after the other, whatever signals come between. |
| `Signals.AskedExactly` | main.py:439-447 | Over all rounds and all signals in them: what each round restarts is the targets of the last signal before its read, none if they were cleared since, and nothing if no signal came or one that ends the runtime came before the check. |
| `Signals.CarriedOutExactly` | main.py:204-224 | A signal's restart is carried out if and only if a round in which one is due reads the targets after it, with neither another signal nor a clearing between. |
| `Signals.Overwritten` | main.py:216-219 | Of two restarts asked for before one round the first is never carried out. |
| `Signals.TooLate` | main.py:441-443 | One asked for between the read and the clearing of the targets is never carried out, though the flag may be up again. |
| `Launcher.Runtime.SelectiveRestart` | main.py:871-896 | Named services start anew, others keep their processes, the watched list holds the current handles; raising part way, no child is without a handle. |
| `Launcher.Runtime.RestartWriters` | main.py:885-887 | The writers are replaced as a whole, or the start raised with none of the new ones running. |
| `Launcher.Runtime.Supervise` | main.py:433-447 | Ends on a shutdown, a dead watched child or a raising restart; otherwise the watched list stays that of the current handles, and every child has a handle. The restarts it makes are those that the signals of its rounds ask for. |
| `Launcher.Runtime.CleanUp` | main.py:906-920 | After the finally block no child runs. |
| `Launcher.RunMain` | main.py:791-921 | On every way out, also when any start raises, every child ever started has been terminated; the restarts made on the way are those the signals asked for. |
| `Launcher.RunWorker` | main.py:660-720 | The same for the worker-only runtime. |
| `Base64.DecodesEncoded` | src/UltimaScraperWeb/ultima_webui_server/tickets.py:39-40 | The lenient decoder undoes the base64url encoding for every number of bytes. |
| `Base64.PadsRestored` | src/UltimaScraperWeb/ultima_webui_server/tickets.py:118-121 | Padding stripped by the writer is restored from the length alone. |
| `Base64.PayloadDecodes` | src/UltimaScraperWeb/ultima_webui_server/tickets.py:117-126 | A payload holds letters of the url alphabet only and, padded, decodes to the bytes it was made of. |
| `Tickets.TicketRoundTrip` | src/UltimaScraperWeb/ultima_webui_server/tickets.py:16-41 | Every ticket created parses to its trimmed fields, or is refused if and only if it has no address. |
| `Tickets.OtherForms` | src/UltimaScraperWeb/ultima_webui_server/tickets.py:99-114 | The older prefix and the bare payload are read as the same ticket. |
| `Tickets.UrlSettles` | src/UltimaScraperWeb/ultima_webui_server/tickets.py:31-31 | Trimming an address once is enough if and only if the trimmed text has no blank that only slashes follow. |
| `Tickets.NotSettled` | src/UltimaScraperWeb/ultima_webui_server/tickets.py:31-31 | Any clean address with a blank and a slash added needs two. |
| `Tickets.TicketUndone` | src/UltimaScraperWeb/ultima_webui_server/tickets.py:117-151 | Parsing gives back the very ticket if and only if its fields are clean: not empty, no blanks around them, no slash at the end of the address. |
| `Tickets.VersionsApart` | src/UltimaScraperWeb/ultima_webui_server/tickets.py:194-196 | No version 1 invite is taken for a version 2 one or for a ticket. |
| `Tickets.MembersRead` | src/UltimaScraperWeb/ultima_webui_server/tickets.py:266-278 | The members of an invite are read in order, or refused if and only if one has no address or no id. |
| `Tickets.InviteRoundTrip` | src/UltimaScraperWeb/ultima_webui_server/tickets.py:224-279 | Every version 1 invite parses to its cluster and members, trimmed, unless it names no cluster or a member without address or id. |
| `Tickets.JoinInviteRoundTrip` | src/UltimaScraperWeb/ultima_webui_server/tickets.py:180-216 | Parsing a version 2 invite gives back code, address and fingerprint if and only if they cannot be taken for each other and have no blanks around them; it is no version 1 invite and no ticket. |
| `Tickets.EntryUrlRoundTrip` | src/UltimaScraperWeb/ultima_webui_server/tickets.py:180-216 | Created at an entry URL it gives back code, that URL and fingerprint if and only if, besides, the URL has no path, query or fragment; without an address none is created. |
| `Backfill.EachOnce` | scripts/backfill_content_mentions.py:342-353 | Deduplication loses no signature and leaves none twice. |
| `Backfill.Extract` | scripts/backfill_content_mentions.py:342-353 | The loop with its seen set keeps the first mention of each signature. |
| `Backfill.MissingAt` | scripts/backfill_content_mentions.py:356-374 | The keys of the page's own contents are enough to tell which mentions are missing. |
| `Backfill.EarlierApart` | scripts/backfill_content_mentions.py:551-556 | What earlier pages inserted does not change what later pages miss. |
| `Backfill.SecondRunEmpty` | scripts/backfill_content_mentions.py:431-648 | A second full run inserts nothing. |
| `Backfill.StoppedAndRunAgain` | scripts/backfill_content_mentions.py:431-648 | A run stopped between two pages and run again leaves the very table of one whole run. |
| `Backfill.PageNext` | scripts/backfill_content_mentions.py:446-469 | The page after the last id read is the next rows that match, and is empty only when none is left or the limit is reached. |
| `Backfill.TargetRows` | scripts/backfill_content_mentions.py:446-466 | Without a limit every matching row with an id above 0 is read, and no other. |
| `Backfill.BackfillPage` | scripts/backfill_content_mentions.py:467-648 | One page counts the missing mentions, and inserts exactly those when applying. |
| `Backfill.Run` | scripts/backfill_content_mentions.py:431-648 | Reads each target row once and in order; a dry run counts exactly what an applying run inserts, whatever the page size. |
| `Backfill.StopAndRunAgain` | scripts/backfill_content_mentions.py:431-648 | Stopped and run again, the table is that of one run, and a third run inserts nothing. |
| `TimeIntegral.OrderedLast` | scripts/performance/assess_mps_efficiency.py:24-26 | The ordered rows are, by time, the last row of each time that has the key. |
| `TimeIntegral.AddsUp` | scripts/performance/assess_mps_efficiency.py:27-34 | Area and coverage add up over any cut of the window. |
| `TimeIntegral.ConstantWindow` | scripts/performance/assess_mps_efficiency.py:27-34 | Over a window without an observation inside, the area is the value held at its start times its length, or nothing before the first: with AddsUp, the integral of the held value. |
| `TimeIntegral.CoveredExactly` | scripts/performance/assess_mps_efficiency.py:27-34 | What is covered is the window from the first observation on. |
| `TimeIntegral.LongestIs` | scripts/performance/assess_mps_efficiency.py:35-35 | The longest held interval is one of the spans and none is longer. |
| `TimeIntegral.HeldSamples` | scripts/performance/assess_mps_efficiency.py:16-40 | The loop computes mean, coverage and longest interval as specified, and refuses a window without positive length. |
| `TimeIntegral.CoverageBounds` | scripts/performance/assess_mps_efficiency.py:36-40 | Coverage is in [0,1], is 1 if and only if an observation precedes the window, and there is a mean if and only if one precedes its end. |
| `TimeIntegral.MeanBounds` | scripts/performance/assess_mps_efficiency.py:37-37 | The mean lies between the least and the greatest observation held in the window. |
| `TimeIntegral.OverlapAddsUp` | scripts/performance/assess_mps_efficiency.py:50-55 | Task time adds up over any cut of the window. |
| `TimeIntegral.SteadyWindow` | scripts/performance/assess_mps_efficiency.py:50-55 | Over a window in which no task starts or finishes, it is the number of running tasks times the length. |
| `TimeIntegral.OneQuarter` | scripts/performance/assess_mps_efficiency.py:91-96 | A task that finishes in the window finishes in exactly one quarter, any other in none. |
| `TimeIntegral.QuartersCount` | scripts/performance/assess_mps_efficiency.py:90-96 | The quarters' tasks are those of the window, each counted once. |
| `TimeIntegral.QuarterMeans` | scripts/performance/assess_mps_efficiency.py:91-101 | The four quarters' mean occupancies average to the whole window's. |
| `TimeIntegral.Quarters` | scripts/performance/assess_mps_efficiency.py:86-103 | The four quarters have the figures of their windows, and there are none without intervals; their rates, occupancies and coverages average to those of the whole window, each middle task that finishes in it counted once. |
| `Seeding.NestedDivision` | scripts/performance/arm64/mixed.py:36-53 | Dividing by ten and then by the posts of a user is dividing by the media of a user. |
| `Seeding.Catalog.SeedBatch` | scripts/performance/arm64/mixed.py:18-84 | A batch inserts no key twice, and only rows whose references are there. |
| `Seeding.Catalog.Seed` | scripts/performance/arm64/mixed.py:12-138 | For all sizes that pass the asserts the counts at the end are those asserted; stopped between batches, whole batches are there. |
| `Seeding.TenMedia` | scripts/performance/arm64/mixed.py:64-71 | Each post has exactly ten media, with consecutive ids. |
| `Seeding.OwnersAgree` | scripts/performance/arm64/mixed.py:34-71 | Every link joins a post and a media of one owner, who is a user. |
| `Recording.ExactExtrema` | scripts/record_resource_run.py:306-325 | A metric's minimum and maximum are values at its path, and no value there lies beyond them. |
| `Recording.Conserved` | scripts/record_resource_run.py:302-325 | The metrics' sample counts and the unaggregated readings add up to the finite numbers visited. |
| `Recording.Summary.Visit` | scripts/record_resource_run.py:302-325 | Visiting an object records its finite numbers, in order, each at its path. |
| `Recording.Summary.Add` | scripts/record_resource_run.py:295-300 | A further sample adds no paths: they are frozen after the first. |
| `Recording.SampleBound` | scripts/record_resource_run.py:371-393 | At most ceil(duration / interval) + 1 samples, however long samples and sleeps take. |
| `Recording.RunSchedule` | scripts/record_resource_run.py:328-393 | The samples keep to the schedule, no sleep is asked for past the end, each sample but the last is followed by a sleep or counted as an overrun, and the summary holds every sample. |
| `Hosts.SameHost` | src/UltimaScraperWeb/ultima_webui_server/fleet_hosts.py:226-239 | Two reports with addresses are on one host if and only if both are on the reporting backend's machine, by a local address, a container's or its own, or neither is and their host parts are the same; without an address a report is on a host of its own. |
| `Hosts.Fleet.Host` | src/UltimaScraperWeb/ultima_webui_server/fleet_hosts.py:226-239 | A host is added once; the others stay. |
| `Hosts.Fleet.PutBackends` | src/UltimaScraperWeb/ultima_webui_server/fleet_hosts.py:241-280 | Backend and worker nodes of the live entries, each on its host, with the state that its status and age give. |
| `Hosts.Fleet.PutClients` | src/UltimaScraperWeb/ultima_webui_server/fleet_hosts.py:282-300 | One WebUI node for each client that is neither revoked nor gone. |
| `Hosts.Fleet.PutDatabases` | src/UltimaScraperWeb/ultima_webui_server/fleet_hosts.py:302-318 | One node for each database, a repeated one once. |
| `Hosts.Fleet.PutDeployments` | src/UltimaScraperWeb/ultima_webui_server/fleet_hosts.py:332-354 | Placeholders for the components a host lacks, and for no others. |
| `Hosts.Fleet.PutLocal` | src/UltimaScraperWeb/ultima_webui_server/fleet_hosts.py:356-387 | The host flagged as this WebUI's own, and what is added to it. |
| `Hosts.UnmixedExactly` | src/UltimaScraperWeb/ultima_webui_server/fleet_hosts.py:211-387 | Some host has both a reporting node and a placeholder of one role if and only if this WebUI can run services, runs none and is not among the clients shown, the reporting backend gives the bare name local, and beside it there is a deployment with a WebUI and no client shown. |
| `Hosts.StandsInExactly` | src/UltimaScraperWeb/ultima_webui_server/fleet_hosts.py:332-354 | A role stands in on a host if and only if it is installed there and nothing of it reports. |
| `Hosts.MixesOnce` | src/UltimaScraperWeb/ultima_webui_server/fleet_hosts.py:378-387 | A report of that kind, for any deployment of a WebUI on the host local. |
| `Hosts.NeverMixes` | src/UltimaScraperWeb/ultima_webui_server/fleet_hosts.py:220-235 | That never happens when no backend reports the bare name "local" as its address. |
| `Hosts.OnOneHost` | src/UltimaScraperWeb/ultima_webui_server/fleet_hosts.py:226-239 | Together the hosts have exactly as many nodes as were put on them: every node is on one host. |
| `Hosts.WorstIs` | src/UltimaScraperWeb/ultima_webui_server/fleet_hosts.py:391-393 | A host's state is the worst of its nodes' states. |
| `Hosts.OneLocalHost` | src/UltimaScraperWeb/ultima_webui_server/fleet_hosts.py:356-387 | Exactly one host has this WebUI's services when they are available, none otherwise. |
| `Hosts.BuildHosts` | src/UltimaScraperWeb/ultima_webui_server/fleet_hosts.py:181-425 | The hosts shown hold every reported node and the placeholders, with distinct keys and the worst states. |
| `Versions.AgreeExactly` | src/UltimaScraperWeb/ultima_webui_server/self_update.py:53-70 | The key order is that of PEP 440 if and only if the releases differ there, or their keys are equally long, or the longer key is the later version anyway. |
| `Versions.ThreeComponents` | src/UltimaScraperWeb/ultima_webui_server/self_update.py:53-70 | So for all versions of at most three release components. |
| `Versions.FourComponents` | src/UltimaScraperWeb/ultima_webui_server/self_update.py:61-62 | But 1.2.3 and 1.2.3.0 are equal in PEP 440 and not to the key. |
| `Versions.KeysOrdered` | src/UltimaScraperWeb/ultima_webui_server/self_update.py:53-70 | The key orders versions totally: any two compare, one way and the other, and the order is transitive. |
| `Versions.NewestIs` | src/UltimaScraperWeb/ultima_webui_server/self_update.py:78-80 | The newest is a maximum of the channel's versions, and there is none if and only if the channel has none. |
| `Versions.OfferedIs` | src/UltimaScraperWeb/ultima_webui_server/self_update.py:165-203 | Over a readable version something is offered if and only if its channel has a newer one, and what is offered is strictly newer. |
| `Versions.OfferedOnce` | src/UltimaScraperWeb/ultima_webui_server/self_update.py:165-203 | Once the offered version runs, the same index offers nothing, also when the channel changes from edge to release. |
| `Limiter.KeptCounts` | src/UltimaScraperWeb/ultima_webui_server/auth.py:65-70 | What pruning keeps is as many failures as the full history has in the window. |
| `Limiter.AttemptLimiter.Check` | src/UltimaScraperWeb/ultima_webui_server/auth.py:65-70 | Refuses if and only if the full history has limit or more failures of the address in the last window seconds. |
| `Limiter.AttemptLimiter.Fail` | src/UltimaScraperWeb/ultima_webui_server/auth.py:72-73 | Adds one failure to the history of the address, at the time read, and to no other. |
| `Limiter.StaysLimited` | src/UltimaScraperWeb/ultima_webui_server/auth.py:57-73 | A failure that a check let through keeps the bound, whatever time has passed since the check. |
| `Limiter.AttemptLimiter.Try` | src/UltimaScraperWeb/ultima_webui_server/auth.py:152-161 | One attempt keeps it, and is recorded if and only if it was checked and wrong. |
| `Limiter.AttemptLimiter.TryAll` | src/UltimaScraperWeb/ultima_webui_server/auth.py:152-161 | Over any run of attempts no interval as long as the window holds more than limit failures of one address. |

## Left out

- SSH, Docker, HTTP, TLS, SQL and the file systems themselves: a command is a nondeterministic outcome with its effect on files, a table a map, set or sequence.
- JSON, URL and regular expression engines: parsers are parameters; a JSON value that was written is assumed to be read back, and matched text is given.
- Rounding: times and measurements are exact reals.
- `install`, `repair`, `uninstall` and registering existing installs: they share the file steps shown here and keep no backup to speak of.
- Reconnecting a new backend and disconnecting a removed one after a change of services.
- Refusals of `_checked` that look at credentials and versions: a request that fails them changes nothing.
- ServiceChanges.ServicesParse: asks for a host name of letters, digits and the other characters written without quotes.
- Tickets.EntryUrlRoundTrip: what `urlparse` finds in a URL is assumed for those that begin with `https://` in lower case, with no control characters.
- Deployments.Upgrade: connecting, checking the host and reading its state before the backups are one step that may fail; it changes no file of the install.
- Operations.AlwaysInOrder: a folder name stands for the host and the folder on it, and every active deployment is taken to have its own; `Rollout.UpgradeInTurn` asks only that no other run changes those of its list.
- Render.Rendered: the rules for the deployment's name and its combination of components are one flag of the spec.
- Membership.Run: connections are kept in the order they were made; a clock that steps back between two creations could change which of several matching connections is found first.
- Membership.ClusterMembership.Sync: revoking, renaming and listing clients, and the background loop, are not modelled.
- Launcher.RunMain: a start that raises is taken to leave no child, terminating and stopping are taken to succeed, and the processes a child starts itself are left to it.
- Launcher.RunWorker: the wait for first-time setup, which starts no child, is not modelled.
- Streams.DeleteJobs: a callback that raises, and the decoding of bytes to text, are not modelled.
- Tickets.TicketRoundTrip: the `usr://token@host` form is a parameter, since it only reads what a URL parser gives.
- Backfill.Run: the user a mention resolves to depends on its text alone; the details kept for the preview and the linked users are not modelled.
- TimeIntegral.Quarters: asks for a window of positive length, since the source raises otherwise; the other figures of the report are plain fields.
- Seeding.Catalog.Seed: sizes are natural numbers, and the generated texts are not modelled.
- Recording.RunSchedule: an interrupt comes between steps, not within the visit of a sample.
- Hosts.BuildHosts: names, versions, details and the order of nodes and hosts on the page are not modelled; lower-casing and recognising IP addresses are parameters; filling in the address of older backends from the deployments is done before.
- Versions.OfferedOnce: reading the index, and the reasons shown when updating is not possible, are not modelled.
- Limiter.AttemptLimiter.TryAll: attempts come one after another; two threads between a check and its failure are not modelled.
- React components, the proxy, password hashing, encryption and the backend, core and archive packages.
