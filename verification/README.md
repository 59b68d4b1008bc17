# A verified model of the NodeConfig operator

The NodeConfig operator turns a NodeConfig into a cloud-init Secret, BMC credentials and a BareMetalHost. This
project models three of its parts and proves what they promise:

1. **The reconcile protocol.** `Reconcile` and `ConfigManager` work by separate API calls on four objects, with no
   transaction and with unlimited retries. Leader election is off by default (`main.go:59`), so several workers may
   serve one NodeConfig at the same time.
2. **The cloud-init printer.** `NewNode`, its five templates and the `Indent` function write one
   indentation-structured document. A reader for the emitted subset is the printer's partner.
3. **Deep copies and bootstrap tokens.** The generated deep-copy code over nested pointers and slices, and the
   parser and printer of kubeadm's bootstrap tokens.

`dafny verify dfyconfig.toml` checks everything.

## How it is laid out

| file | contents |
|---|---|
| `Types.dfy`, `Objects.dfy` | the fields of the API objects that matter, the cluster as three maps, owner references and uids |
| `ApiServer.dfy` | what one API call does: creates, deletes, and patches as three-way field merges; each call may be refused, or carried out with the reply lost |
| `Worker.dfy` | one reconcile run as a machine that makes one API call per step |
| `System.dfy` | any number of runs interleaved with each other, with crashes, and with users, the bare-metal operator and the garbage collector |
| `Reconciler.dfy` | `Reconcile` and `ConfigManager` in their imperative form, proved equal to the machine; `Solo.dfy` ties the machine's executions to a pass |
| `Lock.dfy`, `History.dfy`, `Ready.dfy`, `Bounded.dfy` | safety over all executions |
| `Serial.dfy` | runs for different NodeConfigs do not interfere |
| `Convergence.dfy`, `Cleanup.dfy` | passes without faults, and garbage collection |
| `Failures.dfy` | when a pass returns an error, and what it leaves in the NodeConfig then |
| `Coherence.dfy`, `Disorder.dfy` | when a Ready status means what it says, and executions in which it does not |
| `Text.dfy`, `CloudInit.dfy`, `Quoting.dfy` | the printer |
| `BlockScalar.dfy`, `Reader.dfy` | the reader |
| `DocumentLines.dfy`, `Containment.dfy`, `RoundTrip.dfy`, `AnyInput.dfy`, `PrintableText.dfy` | printer and reader undo each other; contents stay inside their blocks |
| `Stored.dfy` | protocol and printer together |
| `DeepCopy.dfy`, `BootstrapToken.dfy` | the two smaller parts |

Three conventions of the protocol model:

- A patch merges, field by field, the difference between the snapshot taken when the patch helper was made and the
  object at the time of the patch into whatever is stored by then. Metadata and status are patched by two calls, and no
  call is made when there is no difference.
- A read from the informer cache returns the current object, *any* past or invented value, or an error. This covers
  every stale read.
- Outside actions may change hosts and Secrets in any way, and create, edit and delete NodeConfigs, except that nobody
  but the operator writes a NodeConfig's status.

## Where the code differs from what is said about it

- `docs/nodeconfig-workflow.md:35-38` says that nothing is done when the credential Secrets exist already. The code
  writes a failure message in both cases, and when only the BMC Secret exists it first creates the cloud-init Secret
  and sets the user data reference. `Convergence.UndisturbedPass` and `Convergence.OnePassSettles` follow the code.
- The comment at `util/configmanager.go:243` says that the host owns its credentials. The owner is set before the
  snapshot is taken, so the patch is empty and they are owned by nobody
  (`Reconciler.ConfigManager.SetBMHCredentialsOwner`, `Ready.SecretsAreWrittenOnce`). They outlive the host and block
  a NodeConfig of the same name (`Cleanup.RecreationSucceeds`).
- The comment at `types/v1beta1/bootstraptokenstring.go:45` says that a token represented as `""` is let through. Only
  input of length zero is; two quotes are refused, so an empty token does not survive marshalling
  (`BootstrapToken.MarshalledComesBack`).
- The workflow document lists four usable host states; the code also accepts `available`.

Four properties hold only under a condition, and the model says which:

- Runs for different NodeConfigs commute exactly when none is named like another one's credentials
  (`Serial.SerialisableExactly`, with the race itself in `Serial.ClashingNamesRace`).
- A Ready NodeConfig carries no failure message, and user data naming its own Secret, exactly as long as every status
  patch is harmless to what is stored when it arrives (`Coherence.CoherentExactly`). That is so when the runs for it do
  not overlap, do not read it stale, and nobody creates it anew while one is on (`Coherence.AlwaysCoherent`). Each of
  the three is needed: `Coherence.OverlapIsIncoherent`, `Disorder.StaleReadIsIncoherent`,
  `Disorder.ReadyAfterRecreation`.
- Ready says that a run made a host patch without an error, and what the target of that patch was: the image of the
  NodeConfig that the run was given, if that one had an image (`Ready.ReadyIsEarned`). The target is that of the stored
  NodeConfig when the fetch was fresh and nobody has edited, deleted or created the NodeConfig since
  (`Ready.ReadyFitsStored`); without that it need not be (`Disorder.ReadyFromStaleRead`, `Disorder.ReadyDespiteEdit`,
  `Disorder.ReadyAfterRecreation`).
- The stored host gets to the target exactly when it has kept what the run's snapshot shows of it
  (`Ready.DeliveredExactly`). That is so when the host was read fresh and nobody else has changed it since
  (`Ready.ReadyIsDelivered`, and with the condition above `Ready.ReadyMeansDelivered`); from a stale read a NodeConfig
  can become Ready without any host having changed (`Disorder.ReadyWithoutDelivery`).

The admission webhook (`api/v1alpha1/nodeconfig_webhook.go:62-69`) asks for an image, but `setHostSpec` passes silently
over a missing one; specs without image or BMC details are covered by every theorem, with what the code does then.

## Model

| member | source | states |
|---|---|---|
| Reconciler.Reconcile | controllers/nodeconfig_controller.go:78-167 | The imperative pass, with its early returns, its error paths and its deferred patch, leaves exactly the cluster that the step machine leaves and returns an error exactly when the machine says so, whatever the fate of each call (served, refused, carried out with the reply lost) and whatever each read returns; when that is, is told by `Failures.PassErrsExactly` |
| Failures.PassErrsExactly | controllers/nodeconfig_controller.go:84-163 | For every cluster and every fate of every call: a pass returns an error if and only if the NodeConfig cannot be read or one of these happens: a create, a delete, a host patch or an explicit NodeConfig patch with something to send is refused, loses its reply or meets the wrong state; the second host read shows no host; the first shows none and the details for a new host are missing. A failed first host read and a failed deferred patch are not errors |
| Failures.FailureIsReported | controllers/nodeconfig_controller.go:113-137 | A failure at the cloud-init Secret, at the creation of the host or at its association is stored in the NodeConfig in the words for that failure, when the deferred patch goes through and nobody has touched the NodeConfig |
| Failures.RefusedDeleteIsReported | controllers/nodeconfig_controller.go:139-150 | When the delete of an unusable host is refused, or that of the NodeConfig after it, the pass returns an error and the NodeConfig stays, with the message that tells the state of its host; after a refused host delete the host stays too |
| Failures.DeferredPatchRepairs | controllers/nodeconfig_controller.go:113-118 | Whatever becomes of the two calls of the explicit patch, a deferred patch that goes through brings the stored NodeConfig to where the run wants it, Ready included |
| Reconciler.ReconcileBody | controllers/nodeconfig_controller.go:120-166 | From the creation of the Secret to the explicit patch, every exit leaves the machine at the deferred patch with the same object in memory and the same error flag |
| Reconciler.RemoveBoth | controllers/nodeconfig_controller.go:145-151 | The delete branch: host first, then NodeConfig, and no second delete after a failed first one |
| Reconciler.ConfigManager.CreateNodeInitConfig | util/configmanager.go:178-204 | The cloud-init Secret is created under the NodeConfig's own name, owned by it, with the rendering of its spec; nothing else changes, and success is reported only if it was created and the reply arrived |
| Reconciler.ConfigManager.FindHost | util/configmanager.go:115-128 | A read error gives the same answer as an absent host; otherwise the host comes with whether the text of its state is ready, inspecting, registering, match profile or available and its operational status is OK |
| Worker.AvailableExactly | util/configmanager.go:119-123 | The machine's test for a usable host is that test by the texts of the two states |
| Reconciler.ConfigManager.StoreBMHCredentials | util/configmanager.go:304-322 | Creates the credentials Secret, without owner, under the name with suffix -bmc-secret, or changes nothing |
| Reconciler.ConfigManager.SetBMHCredentialsOwner | util/configmanager.go:283-301 | The snapshot is taken after the owner is set, so the patch changes nothing and cannot fail: the host never comes to own its credentials |
| Reconciler.ConfigManager.CreateBareMetalHost | util/configmanager.go:207-251 | Credentials, then host, then owner patch, each only after the one before succeeded; says exactly for which specs the nil dereference happens, before any call |
| Reconciler.ConfigManager.SetHostSpec | util/configmanager.go:153-175 | Writes image, user data and power-on into the host's spec, or nothing when the image or the user data is missing |
| Reconciler.ConfigManager.Associate | util/configmanager.go:61-111 | Second read of the host, host patch and owner reference, as two steps of the machine; on failure only the failure message in memory has changed |
| Reconciler.ConfigManager.SetError | util/configmanager.go:327-329 | Only the failure message changes |
| Reconciler.ConfigManager.ClearError | util/configmanager.go:334-338 | The failure message is gone and nothing else has changed |
| Reconciler.Client.PatchConfig | controllers/nodeconfig_controller.go:114-161 | A NodeConfig patch is two calls, metadata and status, both made even when the first fails; success means both succeeded |
| Worker.StepAdvances | controllers/nodeconfig_controller.go:120-166 | No run makes more than twelve steps: each call brings it strictly closer to its end |
| Solo.LeftAlone | controllers/nodeconfig_controller.go:78-167 | A run that nothing interferes with does to the cluster, inside the interleaving semantics, what one pass of Reconcile does: the executions of the protocol proofs contain the imperative program |
| Lock.OncePerSecret | controllers/nodeconfig_controller.go:122-155 | For any number of workers, crashes, stale reads and lost replies: credentials creates, host creates, host deletes, host patches, NodeConfig deletes and each of the four patches of the NodeConfig by runs that were not refused are, each kind by itself, attempted no more often in total than the cloud-init Secret comes into being |
| Lock.OncePerAdmission | controllers/nodeconfig_controller.go:122-155 | Two attempts of the same kind belong to two different runs, each admitted earlier by creating the Secret, and between those two admissions the Secret has been deleted |
| Lock.RunsAttemptOnce | controllers/nodeconfig_controller.go:120-166 | No run attempts the same kind of call twice |
| Lock.AdmissionsExclude | util/configmanager.go:276-280 | Between two runs that get past the create step somebody has deleted the Secret |
| Lock.AdmissionCreates | util/configmanager.go:276-280 | To get past the create step is to have made the Secret appear, atomically |
| Lock.AttemptsWithinAdmissions | controllers/nodeconfig_controller.go:122-155 | In every execution the attempts of each kind, plus the runs that may still make one, are no more than the admissions |
| Lock.AdmissionsWithinLifetimes | util/configmanager.go:276-280 | Admissions are no more than the appearances of the Secret, counted by its deletions |
| Lock.HoldersStep | controllers/nodeconfig_controller.go:122-155 | Each action spends an admission for each call it attempts |
| History.AlwaysExplained | controllers/nodeconfig_controller.go:84-166 | In every reachable state the position and memory of every run determine its past: which NodeConfig it was given, that it created the Secret, which host it found, created or read again, which host patch it made without an error before Ready was set in memory, which host it found when it blames one |
| Ready.ReadyIsEarned | controllers/nodeconfig_controller.go:122-163 | Whoever turns a stored NodeConfig Ready is a run of that name that was given some NodeConfig, unready, by its fetch, then created the cloud-init Secret, then made a host patch without an error, from a snapshot of the host that it had read, whose target carries that NodeConfig's image URL, checksum and defaulted checksum type and a user-data reference to that Secret; whether that NodeConfig is the stored one is told by `Ready.ReadyFitsStored`, and whether the stored host gets to the target by `Ready.ReadyIsDelivered` |
| Ready.ReadyFitsStored | controllers/nodeconfig_controller.go:84-92 | When that fetch was fresh and nobody has edited, deleted or created the NodeConfig since, the NodeConfig given has the uid and the spec of the stored one, so the target of the host patch is what the stored spec asks for |
| Ready.DeliveredExactly | util/configmanager.go:82-97 | A host patch that is not refused leaves the stored host with the image, the user data and the power of its target if and only if there is a stored host and every part of the target that the snapshot shows already (for image and user data, field by field) is right in it; a patch without a difference is not sent and succeeds even without a host |
| Ready.ReadyIsDelivered | util/configmanager.go:82-97 | When that host read was fresh and nobody but this patch has changed the host since, the stored host's whole spec is the target, right after the patch and when the NodeConfig becomes Ready |
| Ready.ReadyMeansDelivered | controllers/nodeconfig_controller.go:84-163 | Both together: with fresh reads of the NodeConfig and the host, and nobody else changing either since, the stored host carries out the spec of the stored NodeConfig at the moment it becomes Ready |
| Ready.ReadyHasAPast | controllers/nodeconfig_controller.go:122-163 | In every reachable state a stored Ready that was not there at the start has such a causal history, from what the run was given to the target of its host patch |
| Ready.ReadyIsStable | controllers/nodeconfig_controller.go:96-118 | While the NodeConfig exists nothing turns a stored Ready back, not even a deferred patch from an arbitrarily stale snapshot, and its uid stays |
| Ready.NextKeepsReady | controllers/nodeconfig_controller.go:96-118 | One action of any kind keeps Ready |
| Ready.StepKeepsReady | controllers/nodeconfig_controller.go:114-161 | A three-way merge of a snapshot that was not Ready cannot take Ready back |
| Ready.TurnsReady | controllers/nodeconfig_controller.go:160-161 | A call makes a NodeConfig Ready only under the run's own name and only if Ready is set in the run's memory |
| Ready.AssignedFulfils | util/configmanager.go:153-175 | What the host is patched to is the spec's image with the checksum type defaulted to md5, the reference to the run's own Secret, and power-on only from state ready; without an image, what it was |
| Ready.DeletesAreJustified | controllers/nodeconfig_controller.go:133-151 | A host is deleted only by a run that has found the same-named host outside the five usable states or not operationally OK |
| Ready.PatchesAreJustified | controllers/nodeconfig_controller.go:133-155 | A host is patched only by a run that has created it or has found it in one of the five usable states and operationally OK |
| Ready.HostChanges | util/configmanager.go:161-172 | No call changes more of an existing host than image, user data and power, and power only from off to on, when the host that the run holds in memory is in state ready |
| Ready.PowerOnIsJustified | util/configmanager.go:170-172 | In every execution a host's power changes only from off to on, by a run for that name, and only after that same run has read the host, fresh or stale, in state ready |
| Ready.HostsComeAndGo | controllers/nodeconfig_controller.go:133-151 | A host disappears only by the delete branch and appears only by the create branch, powered off, under the run's own name |
| Ready.NewHostIsAskedFor | util/configmanager.go:220-238 | In every execution a new host has the NodeConfig's name, the BMC address of the spec that the creating run fetched, its boot mode or else UEFI, certificate checks disabled and power off, and names credentials under the NodeConfig's name with -bmc-secret that the same run has stored before, with that spec's user name and password |
| Ready.SecretsAreWrittenOnce | util/configmanager.go:283-318 | No call of any run changes or removes an existing Secret, data and owners alike, whatever its name |
| Ready.StoredDataIsRendered | util/configmanager.go:184-196 | In every execution a new Secret holds the rendering of the spec that the creating run fetched, owned by that NodeConfig, or that spec's credentials, owned by nobody |
| Ready.BlameIsDeserved | controllers/nodeconfig_controller.go:133-141 | In every execution, whoever stores a failure message whose text blames a host in some state has found its host unavailable, and in exactly that state |
| NodeConfigTypes.StateTextIsInjective | controllers/nodeconfig_controller.go:140-141 | The text of a provisioning state stands for one state only |
| Bounded.WritesAreBounded | controllers/nodeconfig_controller.go:113-125 | However many runs there are, all their calls for a NodeConfig that change anything but its failure message are at most ten for each time its cloud-init Secret comes into being |
| Bounded.WritesAreEffects | controllers/nodeconfig_controller.go:113-163 | Every call that changes more than the failure message creates the cloud-init Secret or is one of the nine counted kinds |
| Bounded.RetriesOnlyReport | controllers/nodeconfig_controller.go:113-125 | Once the cloud-init Secret exists and stays, every call of every run that starts later changes at most the failure message of its own NodeConfig |
| Bounded.LateRunsAreRefusable | controllers/nodeconfig_controller.go:113-125 | Such a run is, at every moment, still to be refused at the Secret or on its way out with the failure message as its only change in memory |
| Bounded.RefusedStep | util/configmanager.go:276-278 | A refused run stays refused, and its call changes the message at most |
| Serial.Serialisable | util/configmanager.go:136-143 | However calls, crashes and outside changes for distinct NodeConfigs interleave, the final state, runs included, equals that of serving one NodeConfig after the other, when none is named like another one's credentials |
| Serial.InterleavingIsIrrelevant | util/configmanager.go:220-226 | Two interleavings with the same per-NodeConfig projections end in the same state |
| Serial.ProjectionSuffices | util/configmanager.go:257-260 | To one NodeConfig a whole interleaving looks like its own actions alone |
| Serial.StepIsLocal | util/configmanager.go:136-143 | A call's effect on the objects of its NodeConfig, and its result, depend on those objects alone |
| Serial.StepIsFramed | util/configmanager.go:306-309 | A call changes no object but the NodeConfig, host and Secret of that name and the Secret named with -bmc-secret |
| Serial.RestIsUntouched | util/configmanager.go:306-309 | Objects that belong to none of the NodeConfigs concerned are as before, in every execution |
| Serial.ClashingNamesRace | util/configmanager.go:306-309 | Two fresh NodeConfigs, one named like the other one's credentials, no run started, no Secret, no host, no fault and no stale read: the Secret under the common name, and so the final state, depends on which run comes first |
| Serial.SerialisableExactly | util/configmanager.go:306-309 | For distinct NodeConfigs, every interleaving from every start without runs equals serving them one by one if and only if none of them is named like another one's credentials |
| Convergence.UndisturbedPass | controllers/nodeconfig_controller.go:78-167 | The step machine, in a pass without faults, ends in the cluster that a direct case analysis of the five outcomes gives, for every cluster and spec; and the pass returns no error if and only if the NodeConfig is absent or Ready, or its Secret is absent and there is a host, or both are absent, the details for a host are all there and no credentials are in the way |
| Convergence.FreshStartSucceeds | util/configmanager.go:207-251 | With BMC details and an image and nothing there yet, one pass makes the Secret, the credentials and the host with exactly the asked-for fields, image and user data, returns no error, and leaves the NodeConfig Ready |
| Convergence.UsableHostIsKept | controllers/nodeconfig_controller.go:133-151 | A host in one of the five usable states and operationally OK is kept with its NodeConfig, which becomes Ready; any other is deleted with it |
| Convergence.FixpointsAreSettled | controllers/nodeconfig_controller.go:78-167 | A pass changes nothing if and only if the NodeConfig is absent, Ready, or blocked with its Secret there and the cloud-init failure message |
| Convergence.OnePassSettles | util/configmanager.go:207-234 | One pass reaches such a state if and only if it does not stop between the Secret and the host: at credentials that exist already, or in a panic; so the bound of two is tight |
| Convergence.TwoPassesSettle | controllers/nodeconfig_controller.go:78-167 | Two passes always reach a fixpoint, and a third changes nothing |
| Convergence.ReadyMeansAssigned | util/configmanager.go:90-108 | After an undisturbed pass that leaves the NodeConfig Ready: host with image and user data, Secret with the rendering, no failure message, and the host among the NodeConfig's owners |
| Convergence.EnsuresOwner | util/configmanager.go:101-108 | The first owner reference to the host's kind and name is replaced where it stands, whatever its uid; if there is none the new one is appended; nothing else changes |
| Convergence.OwnerIsReplaced | util/configmanager.go:101-108 | So with at most one such reference before there is exactly one afterwards, the new one; the list grows exactly when there was none; all others keep their places |
| Cleanup.CleansUp | controllers/nodeconfig_controller.go:139-151 | A pass over an unavailable host followed by garbage collection has exactly one outcome, reached by exactly one deletion, that of the cloud-init Secret: the starting cluster without that host and that NodeConfig |
| Cleanup.OnlySecretCollectable | util/configmanager.go:261-269 | After the pass the new Secret is the only object with owners none of which exists |
| Cleanup.CollectionTerminates | util/configmanager.go:261-269 | Every collection removes as many objects as it has steps, so it ends |
| Cleanup.RecreationSucceeds | util/configmanager.go:306-320 | A NodeConfig of the same name created afterwards becomes Ready in one pass if and only if the old credentials are gone, which the operator does not see to, and its spec does not make the host creation panic |
| Coherence.CoherentExactly | controllers/nodeconfig_controller.go:113-163 | In every execution the stored status is coherent throughout (Ready with no failure message and with user data naming the NodeConfig's own Secret) if and only if every status patch that arrives is harmless: one to Ready meets no message and no loss of user data that its snapshot did not show, one of a failed run brings no new message to a status that is Ready by now |
| Coherence.NextCoherentExactly | controllers/nodeconfig_controller.go:113-163 | The same for one action of any kind, by users and operator alike |
| Coherence.HarmlessExactly | controllers/nodeconfig_controller.go:113-163 | The same for one three-way merge of statuses, field by field |
| Coherence.AlwaysCoherent | controllers/nodeconfig_controller.go:113-163 | Under three hypotheses (runs for a NodeConfig do not overlap, they do not read it stale, it is not created anew while a run is on) and under arbitrary failures of calls, a stored Ready goes with no failure message and with user data naming the NodeConfig's own Secret |
| Coherence.NextInOrder | controllers/nodeconfig_controller.go:113-163 | Every action that respects these three hypotheses keeps the invariant that at most one run is on and that the stored status is its snapshot or what it wrote |
| Coherence.StepInStep | controllers/nodeconfig_controller.go:155-163 | Every call of such a run, served or not, keeps the stored status coherent, the explicit patch failing and the deferred one succeeding included |
| Coherence.OverlapIsIncoherent | controllers/nodeconfig_controller.go:113-125 | The first hypothesis is needed: two overlapping runs with fresh reads and no fault at all end Ready with the cloud-init failure message |
| Disorder.StaleReadIsIncoherent | controllers/nodeconfig_controller.go:113-125 | The second is needed: a run that starts when the first is over, but from a stale read, leaves Ready with the cloud-init failure message |
| Disorder.ReadyAfterRecreation | controllers/nodeconfig_controller.go:155-163 | The third is needed: when the NodeConfig is deleted and created anew under a run, the new one becomes Ready though the host carries out the old spec, and without user data when the old one had them already; no overlap, no stale read, no fault |
| Disorder.ReadyFromStaleRead | controllers/nodeconfig_controller.go:84-92 | A run given a stale NodeConfig makes the stored one Ready, whatever that one's uid and spec, and the host carries out the stale spec |
| Disorder.ReadyDespiteEdit | controllers/nodeconfig_controller.go:155-163 | A spec edited under a run becomes Ready though the host carries out the spec before the edit |
| Disorder.ReadyWithoutDelivery | util/configmanager.go:82-97 | When the second read of the host is stale and shows a host that is at the target already, nothing is sent, no stored host changes, and the NodeConfig becomes Ready; the NodeConfig is read fresh and left alone, no runs overlap and no call fails |
| Disorder.DeliveryCanFail | util/configmanager.go:161-172 | Such a read exists for every NodeConfig with an image, whatever the stored host carries |
| CloudInit.NodeInput.NewNode | util/cloudinit/node.go:43-47 | Sets the header, appends the additional files to the input's own list and returns the document for the lengthened list; called twice, it prints them twice |
| Stored.NewNodeFor | util/configmanager.go:184-191 | For every spec, readable or not, the fresh input that the operator makes of it gives the document of exactly the spec's files, commands, NTP settings and users, line by line |
| BlockScalar.IndentGlues | util/cloudinit/utils.go:30-34 | Indenting a text is indenting each of its lines |
| BlockScalar.DedentUndoes | util/cloudinit/utils.go:30-34 | Taking the indentation off gives the text back |
| BlockScalar.IndentIsInjective | util/cloudinit/utils.go:30-34 | Different texts stay different |
| BlockScalar.IndentIsHomomorphic | util/cloudinit/utils.go:30-34 | Indenting a text joined of two parts is joining the indented parts |
| BlockScalar.IndentLength | util/cloudinit/utils.go:30-34 | Exactly i characters are added per line |
| BlockScalar.SplitIndent | util/cloudinit/utils.go:30-34 | The lines of the indented text are the indented lines, one for one |
| BlockScalar.BlockRoundTrip | util/cloudinit/files.go:32-34 | A literal block reader with detected indentation and clip chomping (sections 8.1.1.1, 8.1.1.2 and 8.1.2 of YAML 1.2) gives the content back, up to trailing line breaks, if and only if the content has no carriage return and its first line that is not empty does not start with a space |
| Quoting.QuoteRoundTrip | util/cloudinit/commands.go:20-24 | A double-quoted scalar reader (sections 5.7 and 7.3.1 of YAML 1.2) takes back every string that Go's %q writes |
| Quoting.QuoteIsOneLine | util/cloudinit/commands.go:20-24 | A quoted command has no raw line break or carriage return |
| RoundTrip.CommandsRead | util/cloudinit/commands.go:20-24 | The reader recovers every list of commands, in order, one line each, and stops where the list ends |
| DocumentLines.DocumentGlue | util/cloudinit/node.go:20-31 | The text that the templates leave is a fixed first line followed by the document's lines, each after one line break; the kubeadm entry is written like any other file |
| DocumentLines.FileGlue | util/cloudinit/files.go:20-35 | A file entry is its path line, its optional keys and its content lines, for all eight combinations of keys |
| DocumentLines.UserGlue | util/cloudinit/users.go:23-55 | A user entry is its name line, nine optional keys and its list of SSH keys, for all combinations |
| DocumentLines.NtpGlue | util/cloudinit/ntp.go:20-30 | The NTP section line by line, absent, with and without the enabled key |
| Containment.ContentsStayInside | util/cloudinit/files.go:21-34 | For arbitrary contents and arbitrary other fields, line breaks included: the document's lines with fewer than six leading spaces do not depend on any content |
| AnyInput.DocumentRoundTrip | util/cloudinit/node.go:20-47 | For all files, commands, NTP settings and users: a reader of the emitted subset recovers the document, in order and with nothing added, if and only if every scalar is fit for the style it is printed in and every field but the commands is made of characters that a YAML stream may hold (section 5.1 of YAML 1.2); contents up to clip chomping, Enabled and Inactive up to presence, commands unconditionally |
| AnyInput.TextRoundTrip | util/cloudinit/node.go:20-47 | The same for a reader that takes any character |
| PrintableText.DocumentIsPrintable | util/cloudinit/node.go:20-31 | The document is made of characters that a YAML stream may hold if and only if every field but the commands is; the escapes of the commands never leave that set |
| Stored.StoredIsWanted | util/configmanager.go:184-196 | In every execution a new cloud-init Secret holds one value, the document, line by line, of the spec that the creating run fetched; it is read back as that document if and only if the spec's scalars are fit and printable |
| AnyInput.OnlyLinesComeBack | util/cloudinit/node.go:20-31 | A scalar with a line break in it never comes back, whatever keys and items the broken line imitates |
| AnyInput.BrokenEncodingShows | util/cloudinit/files.go:23-25 | A line break in an encoding shows in what is read, whatever follows it |
| RoundTrip.OneLineRoundTrip | util/cloudinit/node.go:20-47 | The round trip for documents whose scalars are on one line, both directions |
| RoundTrip.DocumentReads | util/cloudinit/node.go:20-31 | Reading the whole document is reading its scalars, one by one: no section runs into the next |
| RoundTrip.DocumentSplits | util/cloudinit/node.go:20-31 | The printed document splits into exactly the intended lines |
| RoundTrip.FileReads | util/cloudinit/files.go:20-35 | A file entry followed by anything not indented is read from its own lines only |
| RoundTrip.FileComesBack | util/cloudinit/files.go:20-35 | A file comes back if and only if path and owner are plain-safe, encoding and permissions need no escape, and the content is fit for a block |
| RoundTrip.FieldsRead | util/cloudinit/users.go:24-50 | Optional keys in their fixed order are told apart whichever of them are present |
| RoundTrip.RawDoubleQuotes | util/cloudinit/files.go:24 | Text put between double quotes unescaped is read back if and only if nothing in it would have needed escaping |
| RoundTrip.RawSingleQuotes | util/cloudinit/files.go:30 | The same for single quotes |
| RoundTrip.NtpReads | util/cloudinit/ntp.go:20-30 | The NTP section is read back if and only if its servers are plain-safe, the enabled flag up to presence |
| RoundTrip.UserReads | util/cloudinit/users.go:20-58 | A user entry is read from its own lines only |
| RoundTrip.UserComesBack | util/cloudinit/users.go:20-58 | A user comes back, Inactive up to presence, if and only if its printed strings are plain-safe |
| RoundTrip.ExplicitFalseIsLost | util/cloudinit/users.go:36-38 | An explicit false for Inactive or Enabled is printed as true, since the template tests only the pointer |
| DeepCopy.DeepCopyList | api/v1alpha1/zz_generated.deepcopy.go:126-137 | The copy of a list is deeply equal to it, nil told from empty, and every mutable object it reaches is new; the source is not written |
| DeepCopy.DeepCopyConfig | api/v1alpha1/zz_generated.deepcopy.go:98-105 | The same for a NodeConfig |
| DeepCopy.DeepCopySpec | api/v1alpha1/zz_generated.deepcopy.go:158-192 | The same for a spec: two flat pointers, two flat slices, a slice of structs with pointers, and a pointer to a struct with a slice and a pointer |
| DeepCopy.CopyFlatFields | api/v1alpha1/zz_generated.deepcopy.go:160-179 | The four fields that point to nothing further are equal and new, the other two still shared |
| DeepCopy.DeepCopyUsers | api/v1alpha1/zz_generated.deepcopy.go:180-186 | A slice of users is copied element by element into a new one that shares nothing |
| DeepCopy.DeepCopyUser | api/v1alpha1/zz_generated.deepcopy.go:235-287 | Nine pointers and a slice, each nil or equal and new; no two pointers of the copy are the same, even where those of the source are |
| DeepCopy.DeepCopyStatus | api/v1alpha1/zz_generated.deepcopy.go:205-222 | Three pointers, each nil or equal and new, no two of them the same |
| DeepCopy.DeepCopyNtp | api/v1alpha1/zz_generated.deepcopy.go:74-86 | A slice and a pointer, each nil or equal and new |
| DeepCopy.CopyNtpPointer | api/v1alpha1/zz_generated.deepcopy.go:187-191 | A nil pointer stays nil; otherwise a new struct with an equal value that shares nothing |
| DeepCopy.CopySlice | api/v1alpha1/zz_generated.deepcopy.go:76-80 | A nil slice stays nil, an empty one stays empty, and the elements are equal in a new array |
| DeepCopy.CopyPointer | api/v1alpha1/zz_generated.deepcopy.go:81-85 | A nil pointer stays nil; otherwise an equal value in a new place |
| BootstrapToken.BootstrapTokenString.UnmarshalJSON | types/v1beta1/bootstraptokenstring.go:43-60 | Non-empty input is accepted if and only if it is a token once its quotes are erased; the receiver then holds its two parts and marshals to the quoted erased text; empty or refused input leaves the receiver as it was |
| BootstrapToken.NewBootstrapTokenString | types/v1beta1/bootstraptokenstring.go:70-82 | Succeeds if and only if the text is six and sixteen lower-case letters or digits around a dot, and splits it there |
| BootstrapToken.NewBootstrapTokenStringFromIDAndSecret | types/v1beta1/bootstraptokenstring.go:84-88 | Succeeds if and only if each part is valid on its own, and then holds exactly those parts |
| BootstrapToken.SubmatchesAreExact | types/v1beta1/bootstraptokenstring.go:74-82 | A match is the only way to cut the text into two valid parts |
| BootstrapToken.TokensAreLowerCase | types/v1beta1/bootstraptokenstring.go:74-82 | A text is accepted if and only if it is 23 characters long, with a dot at the seventh place and lower-case ASCII letters and digits everywhere else |
| BootstrapToken.PartsComeBack | types/v1beta1/bootstraptokenstring.go:84-88 | Dots inside the given parts cannot make an invalid pair look like a token |
| BootstrapToken.MarshalledComesBack | types/v1beta1/bootstraptokenstring.go:38-68 | What is marshalled unmarshals to the same parts if and only if they are valid; in particular the quotes around an empty token are refused |
| BootstrapToken.QuotesDoNotMatter | types/v1beta1/bootstraptokenstring.go:50-57 | Erasing quotes once more, or adding them around, does not change what is accepted |

## Left out

- main.go, the manager, scheme, RBAC and manifests: wiring only.
- The `curl` and `ipmitool` checks of the admission webhook: foreign processes. Specs it would refuse are modelled too.
- The text/template engine and `generate`: the model starts from the text that the templates leave after trimming.
- Jinja expansion, and YAML beyond the emitted subset. Plain scalars are read as text; that a YAML loader would take an
  unquoted `true` or `0640` for something else than a string is not modelled.
- `strconv.IsPrint` beyond ASCII: the Go library's table is an unspecified constant, so the theorems hold for any table
  without C1 controls and without the noncharacters U+FFFE and U+FFFF.
- A tab inside a plain scalar, which YAML allows between words, is refused by the reader here.
- Characters are checked once, for the whole stream (section 5.1 of YAML 1.2). The finer rules inside scalars are not
  modelled: YAML excludes the byte order mark from plain and block scalars, which the reader accepts there, and allows
  DEL, the C1 controls and U+FFFE inside quotes, which the reader refuses.
- Strings are sequences of Unicode scalar values; Go's treatment of invalid UTF-8 is not modelled.
- The inside of the Kubernetes client, its caches and cluster-api's patch helper: taken by their contracts as described
  above. Resource versions, finalizers, conditions and server-side defaulting are not part of this model.
- Garbage collection follows owner uids only, deletes dependents in the background and knows no finalizers.
- Owner references carry kind, name and uid; the API version, the controller flag and the labels and annotations of
  objects are not part of this model.
- The texts of API errors in failure messages; they never reach the stored status, since `Reconcile` overwrites them.
- Logging, events, requeue delays and the errors' wrapping; a pass only tells whether it returns an error.
- A nil dereference ends the pass after its deferred patch; what the process does then is not modelled.
- DeepCopy.DeepCopyList: ListMeta and its deep copy are library code and not part of this model; it is copied by value,
  so its optional item count is not covered.
- DeepCopy.DeepCopyConfig: ObjectMeta and its deep copy are library code and not part of this model; it is copied by
  value, so its own maps, slices and pointers are not covered.
- The nil checks of the `DeepCopy` methods and the wrapper `DeepCopyObject`: they add no case that
  `DeepCopy.CopyNtpPointer` does not have. Slices are modelled with their length but without spare capacity.
- `DeepCopyInto` writes through a pointer to its target. Here the method's out-parameter is that target, so a call in
  which source and target are the same struct is not modelled.
- The regular expression and `TokenFromIDAndSecret` of k8s.io/cluster-bootstrap are taken as documented there.
- types/v1beta2/bootstraptokenstring.go and the kubeadm deep copies: the same logic and the same obligations again.
- types/v1beta1/types.go, types/v1beta2/types.go, utils.go: declarations and serializer calls.
