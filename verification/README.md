# A verified model of Switcher's state machines

Dafny models of the parts of Switcher that hold algorithms or step protocols, and proofs of what they keep.
`dafny verify dfyconfig.toml` checks the project.

| files | what they model |
|---|---|
| `InfoTree.dfy` | the information tree: ordered children, dotted paths, grafting |
| `Switcher.dfy`, `SavedTree.dfy`, `RoundTrip.dfy`, `LoadOrder.dfy`, `UserData.dfy`, `SavedStates.dfy`, `Nicknames.dfy`, `Quiddities.dfy` | saving, resetting and loading the state of a switcher, and its quiddities over whole runs |
| `Bundles.dfy` | kinds made of other kinds by the configuration |
| `MultipleBuffer.dfy`, `RenderLoop.dfy` | the triple buffer between the video thread and the render thread, and the protocol that keeps the render thread off windows being destroyed |
| `Executor.dfy` | the process supervisor: one child among signals, exits, callbacks and a periodic monitor |
| `VersionText.dfy`, `ReleaseVersion.dfy` | the release script: reading and rewriting version lines, and the versions a run of releases goes through |
| `LtcDiff.dfy` | linear timecode: detecting the frame rate, and the distance of two timecodes |
| `IceTransport.dfy`, `SdpAnswer.dfy`, `CallList.dfy`, `CodecUtils.dfy` | SIP: answering an offer, routing packets to writers, the list of outgoing calls, codecs from caps |

Objects that the source changes in place are classes. Their methods are proved against functions on values, and the
lemmas are about those functions, over all inputs, runs or reachable states. Callbacks and locked regions are single
steps; what the operating system, the SIP stack or libltc answers is an input of the step. Every lemma switches
automatic induction off, so that each proof is the one that is written.

## What the proofs bring to light

- A load replaces exactly the user-data children that were saved, whatever there is when it starts
  (`UserData.LoadRefills`); children grafted since the save stay.
- A saved state comes back exactly when every quiddity created since the reset saves a custom tree or has none by
  default, and when for each quiddity the user data found by the load has the saved root value and no children but the
  first of those saved (`RoundTrip.RoundTripIff`). From the second trip on, only user data that was changed meanwhile
  can make a difference (`SavedStates.SecondTripIff`).
- Two valid states that do not come back are a quiddity that emptied its kind's default custom tree, and one with a
  value at its user-data root (`SavedStates.NotAllComeBack`).
- A nickname comes back exactly when it has one key. With dots around that key the quiddity returns under its nickname,
  but without its property values and user data; with no key (".") or several ("a.b") it is lost
  (`Nicknames.LoneNicknameIff`).
- A default nickname can be one that a caller has taken already, because only a given nickname is compared with the
  others (`SavedStates.DefaultNicknameMayClash`).
- Documentation is shared by the process: a bundle that another switcher has documented is never registered
  (`Bundles.DocumentedElsewhereIsNeverAKind`). A bundle makes its quiddities with a switcher of its own, so a bundle
  that uses a bundle is accepted but can never be made (`Bundles.MadeIffPlain`).
- A configuration file read later can leave a registered bundle with a description that uses itself
  (`Bundles.ReloadMayBreak`); `Bundles.WellFoundedIff` says when the present descriptions still come down to kinds that
  are not bundles, and adding descriptions never breaks that (`Bundles.AddingStaysWellFounded`).
- `has_changed` is true only for frames that are not the newest, so a renderer that uploads changed frames alone stays
  a frame behind; and the slot that a read has handed out can be overwritten by the next write
  (`MultipleBuffer.ChangedIffNotNewest`, `MultipleBuffer.HandedOutSlotOverwrittenIff`). After the writer has gone round
  a reader that stands still, the next read passes over a frame that is still held
  (`MultipleBuffer.ReadPassesOverIff`, `MultipleBuffer.ThreeWritesPassOver`).
- The test of `ongoing_destruction_` and the enqueue have to be one step: when they are two, a late enqueue brings a
  destroyed window back, and `RenderLoop.DetachedWindowSafeIff` says exactly when that is ruled out. A window whose
  set-up fails is counted down but not up, so `instance_counter_` is the windows set up less the failed ones gone
  (`RenderLoop.InstancesAre`), and live windows get no pass exactly when these are as many (`RenderLoop.NoPassIff`).
- A stop does not cancel a restart that is pending (`Executor.MonitorRelaunchesIff`).
- A tick of the LTC difference can drop the timecode of the first reader without publishing anything
  (`LtcDiff.TickLosesTimecodeIff`), and a timecode of midnight is ignored (`LtcDiff.TimecodeKeptIff`).
- With several direction attributes in one media, only the last is turned into recvonly; media without one are not in
  the answer, although RFC 3264 (section 6) wants a line for each line of the offer
  (`SdpAnswer.AnswerIsRecvOnlyIff`, `SdpAnswer.AnswersAllIff`).
- A release of switcher needs a required shmdata version in the clone, or the script stops
  (`ReleaseVersion.FilesFollowVersions`).
- Caps without a payload or a clock rate give no codec at all, while a missing name or media gives "null"
  (`CodecUtils.NoCodecIff`).

## Model

| member | source | states |
|---|---|---|
| `InfoTree.SubOfPut` | switcher/infotree/information-tree.cpp:260-315 | what is grafted at some keys is found at these keys |
| `InfoTree.ChildOfPut` | switcher/infotree/information-tree.cpp:293-315 | grafting below one child of a tree changes that child only |
| `InfoTree.GraftIsProper` | switcher/infotree/information-tree.cpp:286-315 | grafting keeps the keys of a node different, nonempty and free of dots |
| `InfoTree.KeysOfPath` | switcher/infotree/information-tree.cpp:274-284 | a dotted path is its first key followed by the keys of the rest, with or without a dot in front |
| `Switcher.Switcher.Create` | switcher/quiddity/container.cpp:60-115 | fails for an unknown kind or a given nickname in use; otherwise appends one quiddity with the next id, the properties of its kind and, without a nickname, the kind and id as one |
| `Switcher.Switcher.Remove` | switcher/quiddity/container.cpp:145-149 | the quiddity with the id is taken out, the others stay in order |
| `Switcher.Switcher.ChangeQuiddity` | switcher/quiddity/quiddity.cpp:156-160 | a nickname, a property value or a graft of user data changes that quiddity only |
| `Switcher.Switcher.ResetState` | switcher/switcher.cpp:83-93 | removes what was created since the last reset, if asked to, and takes what is left as what there was at the reset |
| `Switcher.Switcher.GetState` | switcher/switcher.cpp:228-273 | the tree is the fold of the five kinds of grafts over the quiddities, in order |
| `Switcher.Switcher.LoadState` | switcher/switcher.cpp:95-226 | without a tree nothing happens; with one the state and the sequence of calls made on the quiddities are those of creation and the six phases |
| `Switcher.Switcher.SetProperties` | switcher/switcher.cpp:139-160 | every saved property is set on the quiddity named, but for a true `started`, whose quiddity is put off in tree order |
| `UserData.LoadRefills` | switcher/switcher.cpp:162-174 | whatever user data a quiddity has, after the loop each child saved for it holds exactly the saved subtree; its other children, their order and the root value are as they were; new children follow |
| `UserData.RefilledIff` | switcher/switcher.cpp:162-174 | the user data equals the saved one if and only if the root value found was the saved one and the children found are the first of those saved |
| `SavedTree.Section` | switcher/switcher.cpp:232-273 | in the tree of any list of quiddities with different nicknames free of dots, each section holds exactly their entries, in their order, and nothing else |
| `SavedTree.EntryAt` | switcher/switcher.cpp:236-272 | reading a section at a nickname gives what was saved there for that quiddity, and nothing exactly when nothing was |
| `RoundTrip.SetPropsRestores` | switcher/switcher.cpp:143-158 | setting the saved values brings each saved property back to its value, whatever it was, except a start that is put off |
| `RoundTrip.Pointwise` | switcher/switcher.cpp:117-178 | the loop of a phase works on each quiddity that a key names as if there were no other |
| `RoundTrip.StartsInOrder` | switcher/switcher.cpp:140-147 | the quiddities to be started are those whose saved `started` is true, once each, in tree order |
| `RoundTrip.CreatesAll` | switcher/switcher.cpp:106-115 | from a saved tree every quiddity created since the reset is created again, in its order, with a new id |
| `RoundTrip.LoadGives` | switcher/switcher.cpp:83-273 | for every valid state, with properties and user data of the remaining quiddities changed meanwhile, what each quiddity saves after save, reset and load: kind, nickname and property values as before, user data with each saved child put back, and exactly what may differ |
| `RoundTrip.RoundTripIff` | switcher/switcher.cpp:83-273 | save, reset and load, with properties and user data of the remaining quiddities changed meanwhile: the next save equals the first if and only if each created quiddity has a custom tree or none by default, and all user data can return |
| `LoadOrder.LoadInOrder` | switcher/switcher.cpp:106-224 | for any tree and state: creations, on_loading, nicknames, property values, user data, starts and on_loaded come in this order |
| `LoadOrder.EachOnce` | switcher/switcher.cpp:106-224 | loading a saved state calls on_loading, the renaming and on_loaded once for each created quiddity and for no other, makes each saved start once, and sets each other saved property and grafts each user-data child once |
| `LoadOrder.CreatesInOrder` | switcher/switcher.cpp:106-115 | loading a saved state first creates, in their order, the quiddities beyond those kept, and nothing later |
| `LoadOrder.OnlyWhatTheTreeSays` | switcher/switcher.cpp:106-224 | for any tree and state, everything a load does is said in its section of the tree |
| `LoadOrder.StartsInTreeOrder` | switcher/switcher.cpp:139-200 | the starts made when loading a saved state are, in order, exactly the quiddities whose saved `started` is true, in the order of the properties section |
| `SavedStates.LoadKeepsValid` | switcher/switcher.cpp:95-226 | a loaded state can be saved and loaded again |
| `SavedStates.SecondTripIff` | switcher/switcher.cpp:83-273 | after one save, reset and load, a second one gives the same save if and only if the user data of the quiddities kept can return; created ones need no condition |
| `SavedStates.SecondTripIsExact` | switcher/switcher.cpp:83-273 | so it changes nothing when that user data is left alone |
| `SavedStates.CreateKeepsValidIff` | switcher/quiddity/container.cpp:60-90 | creating a quiddity keeps nicknames unique and usable as keys if and only if it fails, or the nickname it gets is a key not in use |
| `SavedStates.ResetKeepsValid` | switcher/switcher.cpp:83-93 | a reset keeps validity and leaves exactly the quiddities that were there at the last one, or all of them |
| `SavedStates.DefaultNicknameMayClash` | switcher/quiddity/container.cpp:76-87 | two creations after which two quiddities share a nickname |
| `SavedStates.RemoveKeepsValid` | switcher/quiddity/container.cpp:145-149 | removing a quiddity leaves a state that can be saved and loaded |
| `SavedStates.ChangeKeepsValidIff` | switcher/quiddity/quiddity.cpp:156-160 | setting a property and grafting user data keep validity; a new nickname (lines 212-216) does if and only if it is a key that no other quiddity has |
| `SavedStates.RunsAreValid` | switcher/switcher.cpp:83-273 | over any run of creations, removals, changes, resets and trips from an empty switcher, the state can be saved and loaded at every point if and only if every nickname given is a key not in use |
| `SavedStates.NotAllComeBack` | switcher/switcher.cpp:83-273 | two valid states whose save after a trip differs from the one before |
| `Nicknames.LoneNicknameIff` | switcher/switcher.cpp:95-273 | for a lone created quiddity and every nickname: it is there again with its kind and nickname if and only if the nickname has exactly one key; otherwise nothing is; with dots around the one key, exactly what comes back: kind, nickname and custom tree, but default properties and no user data |
| `Quiddities.LoadSetsEach` | switcher/switcher.cpp:139-160 | whatever the tree, each writable property it names gets the value it finds, read as the type of the property, but for a true `started`; the others keep theirs |
| `Quiddities.LoadContinues` | switcher/switcher.cpp:95-226 | whatever the tree, a load keeps every quiddity with its id, kind and unwritable values, and uses one new id for each entry of a known kind |
| `Quiddities.IdsAreNeverReused` | switcher/utils/ids.cpp:31-42 | in every run of creations, removals, changes, resets, trips and loads of any trees: ids in use are different, an id names one quiddity for good, and the last id counts the attempts to create a known kind |
| `Quiddities.RemoveTakesOne` | switcher/quiddity/container.cpp:145-149 | a removal takes out the quiddity with the id and no other |
| `Quiddities.ChangeTakesOne` | switcher/quiddity/quiddity.cpp:212-216 | a change is made on the quiddity with the id and on no other |
| `Quiddities.ResetComesBack` | switcher/switcher.cpp:83-93 | a reset, any run without resets and a removing reset leave exactly what was there after the first, but for what was removed since |
| `Quiddities.SavesWhatIsSet` | switcher/switcher.cpp:260-273 | a value set from text is the one in the next save; no other quiddity is saved differently |
| `Quiddities.SavesWhatIsGrafted` | switcher/switcher.cpp:253-258 | a tree grafted into the user data is at its place in the next save; no other quiddity is saved differently |
| `Bundles.PassesGrow` | switcher/switcher.cpp:376-421 | repeated passes never take a kind or a documentation back, and a new kind is newly documented |
| `Bundles.PassesStabilise` | switcher/switcher.cpp:376-421 | after as many passes as there are configured bundles, another one changes nothing |
| `Bundles.FinalKindsAreLeast` | switcher/switcher.cpp:381-419 | the kinds in the end are the least set with the first kinds that holds every bundle complete, without underscore, made of kinds of the set and not documented elsewhere |
| `Bundles.OrderDoesNotMatter` | switcher/switcher.cpp:381-419 | the same entries in another order end with the same kinds |
| `Bundles.KindIff` | switcher/switcher.cpp:381-419 | a name neither known nor documented becomes a kind in the end if and only if a description of it has no underscore in the name, both texts, and a pipeline of kinds there are in the end |
| `Bundles.PassKindIff` | switcher/switcher.cpp:381-419 | in one pass, exactly the bundles become kinds that are ready over the kinds there were and those that entries before them have become |
| `Bundles.LoadRegistersTwice` | switcher/switcher.cpp:335-336 | a load that adds something registers bundles of kinds there are, and bundles of these |
| `Bundles.FileIsMerged` | switcher/configuration/configuration.cpp:79-86 | after a file names are unique, entries keep their places, each name of the file has an entry, and each field is what the file says last, else as it was, else blank |
| `Bundles.FileAddsKind` | switcher/configuration/configuration.cpp:79-86 | a file with a complete bundle of known kinds, not documented elsewhere, makes it a kind |
| `Bundles.PruneTakesOne` | switcher/switcher.cpp:361-374 | the pruned name is gone, all other entries and all kinds stay |
| `Bundles.DocumentedElsewhereIsNeverAKind` | switcher/switcher.cpp:410-414 | a name documented without being a kind here is never registered here |
| `Bundles.MergeKeepsEntries` | switcher/switcher.cpp:321-332 | merging descriptions keeps every entry as it is, keeps names unique, and afterwards has an entry for each new name |
| `Bundles.HistoriesAreFounded` | switcher/switcher.cpp:313-421 | in every history of passes, loaded bundles, configuration files, plugins, replaced sections and pruned bundles, each kind is plain or a bundle that was accepted using only kinds registered strictly before it |
| `Bundles.AcceptedAsConfigured` | switcher/switcher.cpp:381-419 | each bundle a pass accepts is recorded with the complete description it has in the configuration of that pass |
| `Bundles.WellFoundedIff` | switcher/switcher.cpp:376-421 | the present descriptions bring given kinds down to plain ones if and only if a switcher with the plain kinds would register them all |
| `Bundles.AddingStaysWellFounded` | switcher/switcher.cpp:313-340 | as long as descriptions are only added, in any history, the present ones bring every kind down to plain ones |
| `Bundles.ReloadMayBreak` | switcher/configuration/configuration.cpp:39-86 | from a new switcher, a load and then a configuration file after which a registered bundle is not well-founded any more |
| `Bundles.Expansion` | switcher/switcher.cpp:381-419 | replacing bundles by what their accepted descriptions use ends, with plain kinds only |
| `Bundles.MadeIffPlain` | switcher/quiddity/bundle/bundle.cpp:45-66 | whatever the configuration and history of the switcher inside a bundle, it has all the kinds a pipeline uses if and only if all of them are plain |
| `Bundles.Switcher.RegisterBundleFromConfiguration` | switcher/switcher.cpp:376-421 | one pass over the configuration in order, each accepted kind being available to the next entries |
| `Bundles.Switcher.LoadBundleFromConfig` | switcher/switcher.cpp:313-340 | an unreadable description changes nothing; a readable one is merged, and two passes follow when something was added, the first when the configuration is taken over |
| `Bundles.Switcher.FromTree` | switcher/configuration/configuration.cpp:88-92 | the new configuration is taken over and a pass made |
| `Bundles.Switcher.FromFile` | switcher/configuration/configuration.cpp:39-86 | an unusable file changes nothing; a usable one replaces the fields it has, adds the entries it has, and a pass follows |
| `Bundles.Switcher.LoadPlugin` | switcher/quiddity/factory.cpp:137-151 | the kind of the plugin is plain, known and documented from then on |
| `Bundles.DocumentationRegistry.RegisterDoc` | switcher/quiddity/documentation-registry.cpp:27-31 | a name is inserted once, and only the first insertion says so |
| `MultipleBuffer.ReadsNeverGoBack` | plugins/glfw/multiple-buffer.hpp:35-51 | over any run reads never go back in write order, and a frame reported as changed is never returned again |
| `MultipleBuffer.ChangedIffNotNewest` | plugins/glfw/multiple-buffer.hpp:35-43 | a read leaves `has_changed` true exactly when its frame is not the newest |
| `MultipleBuffer.ReadsSettle` | plugins/glfw/multiple-buffer.hpp:35-43 | once writing stops the third read and every later one return the newest frame |
| `MultipleBuffer.ReadPassesOverIff` | plugins/glfw/multiple-buffer.hpp:35-43 | a read moves on to a newer frame, and passes over one that is held if and only if the writer is one slot ahead and the slot after it is newer than the one read |
| `MultipleBuffer.ThreeWritesPassOver` | plugins/glfw/multiple-buffer.hpp:35-51 | a run in which that happens |
| `MultipleBuffer.WriteSparesReadSlot` | plugins/glfw/multiple-buffer.hpp:45-51 | a write lands in range, on neither the read slot nor the last written one |
| `MultipleBuffer.HandedOutSlotOverwrittenIff` | plugins/glfw/multiple-buffer.hpp:35-51 | exactly when the next write, or the one after it, overwrites the slot a read has handed out |
| `MultipleBuffer.Buffer.Read` | plugins/glfw/multiple-buffer.hpp:35-43 | returns the frame at the read index, moves it on unless it is at the write index, and clears `has_changed` then |
| `MultipleBuffer.Buffer.Write` | plugins/glfw/multiple-buffer.hpp:45-51 | the frame is the newest afterwards, copied over the slot it lands on, and the slot to be read next is untouched |
| `MultipleBuffer.Buffer.Resize` | plugins/glfw/multiple-buffer.hpp:53-58 | every slot is cut or padded to the size, and the indices stay |
| `RenderLoop.NeverDrawsDestroyedWindow` | plugins/glfw/glfw-renderer.cpp:44-58 | in every interleaving over any number of windows, with test and enqueue of a task as one step, no pass has a destroyed window in its batch |
| `RenderLoop.DetachedWindowSafeIff` | plugins/glfw/glfwvideo.cpp:594-603 | with test and enqueue as two steps, a window past its unsubscription is never touched again if and only if it has no entry left and no adder is between the two |
| `RenderLoop.LateEnqueueBreaksSafety` | plugins/glfw/glfwvideo.cpp:672-674 | a run in which a late enqueue brings a destroyed window into a batch |
| `RenderLoop.RunsFromStart` | plugins/glfw/glfw-renderer.cpp:34-58 | both hold of every disciplined run from the start: no destroyed window is touched, and the tasks of subscribed windows are run once, in order |
| `RenderLoop.InstancesAre` | plugins/glfw/glfwvideo.cpp:529-611 | in every run from the start `instance_counter_` is the windows set up and not gone, less the windows gone that could not be set up |
| `RenderLoop.NoPassIff` | plugins/glfw/glfw-renderer.cpp:36-40 | in every run, while a window is live and no pass is under way, the render thread sees no window if and only if these two numbers are equal |
| `RenderLoop.BrokenWindowStopsRendering` | plugins/glfw/glfwvideo.cpp:529-611 | a run from the start in which they are equal beside a live window |
| `RenderLoop.TasksRunOnceInOrder` | plugins/glfw/glfw-renderer.cpp:131-154 | for every subscribed window, in any run: the tasks added are the tasks run, then the rest of the batch, then those pending, in order |
| `RenderLoop.PassTakesAllWindows` | plugins/glfw/glfw-renderer.cpp:138-149 | in every run a pass gets every live window, with all its pending tasks or none, and the window stays entered for the next pass |
| `RenderLoop.PassRunsItsBatch` | plugins/glfw/glfw-renderer.cpp:44-58 | whatever happens during a pass, unsubscriptions included, at its end all tasks it took have been run, in order |
| `RenderLoop.DrawnInOrder` | plugins/glfw/glfw-renderer.cpp:47-58 | a pass draws exactly the windows of the batch without a failed task, each once, in key order |
| `RenderLoop.Renderer.RenderPass` | plugins/glfw/glfw-renderer.cpp:44-58 | what the pass logs is, for each window, exactly the tasks of its queue in queue order, windows one after the other in key order, and nothing else; it draws the windows without a failed task |
| `RenderLoop.Renderer.PopRenderingTasks` | plugins/glfw/glfw-renderer.cpp:138-149 | returns the tasks there were and leaves every window with an empty queue |
| `RenderLoop.Renderer.AddRenderingTask` | plugins/glfw/glfw-renderer.cpp:151-154 | the new entry comes last in the queue of its window, other windows are untouched |
| `RenderLoop.Renderer.UnsubscribeFromRenderLoop` | plugins/glfw/glfw-renderer.cpp:131-136 | the window has no entry any more, other windows are untouched |
| `Executor.ReachableStates` | plugins/executor/executor.cpp:162-324 | in every reachable state at most one child is unreaped, a pending restart means there is one already asked to stop, and an exited child has raised `child_dead` or its signal is still to be handled |
| `Executor.RelaunchesAreJustified` | plugins/executor/executor.cpp:307-324 | each launch by the monitor follows a restart asked for since the last launch, or is one of a periodic command not stopped since |
| `Executor.MonitorRelaunchesIff` | plugins/executor/executor.cpp:312-321 | having collected a child the monitor tries to launch it again exactly then |
| `Executor.DisconnectMeans` | plugins/executor/executor.cpp:281-305 | in every reachable state: the path is cleared; without a path left a child is asked to stop and no restart asked; else a restart is asked if and only if there is a child, it is wanted and none is pending |
| `Executor.ConnectMeans` | plugins/executor/executor.cpp:230-279 | in every reachable state: the path is stored; a restart is asked if and only if there is a child, it is wanted and none is pending; without a child one is launched if and only if that is set, there is a command and the spawn succeeds |
| `Executor.SetStartedMeans` | switcher/quiddity/startable.cpp:33-50 | in every reachable state: when `started` is set true or false, whether a child is launched or stopped, what is stored, and when the stop of the user ends |
| `Executor.DecideMeans` | plugins/executor/executor.cpp:312-321 | having collected a child the monitor launches the next one, or tries to, and leaves `started`, or it clears `started`; which, the log says |
| `Executor.ExitIsCollected` | plugins/executor/executor.cpp:27-28 | an exited child is collected by the next tick, at most one signal delivery away |
| `Executor.PhasesMakeTick` | plugins/executor/executor.cpp:307-324 | the three phases of the monitor, without anything in between, make its tick, fields and events |
| `Executor.Executor.StartProcess` | plugins/executor/executor.cpp:162-220 | nothing with a child or without a command; a failed spawn clears only the user's stop; a launch sets the pid |
| `Executor.Executor.StopProcess` | plugins/executor/executor.cpp:222-228 | a child is sent SIGTERM and marked as stopped by the user |
| `Executor.Executor.OnShmdataConnect` | plugins/executor/executor.cpp:230-279 | stores the path, then asks for a restart at most once, or starts when set to, or neither |
| `Executor.Executor.OnShmdataDisconnect` | plugins/executor/executor.cpp:281-305 | clears the path; the last one stops the child, any other asks for a restart at most once |
| `Executor.Executor.MonitorProcess` | plugins/executor/executor.cpp:307-324 | only an exited child that can be waited for is collected, then launched again or `started` is cleared; otherwise nothing changes |
| `Executor.Executor.SetStartedProperty` | switcher/quiddity/startable.cpp:33-50 | the property changes only when start or stop succeed, and not at all to the value it has |
| `VersionText.SearchPairOfSub` | scripts/release_version.py:126-134 | for any line, replacing every number leaves the match of the version pattern where it was, with the new number |
| `VersionText.SearchDottedOfSub` | scripts/release_version.py:135-140 | the same for the dotted pattern |
| `VersionText.PairHereIff` | scripts/release_version.py:28-28 | the version pattern finds a word and a number at the start of a text if and only if the text reads lead, word, spaces, digits, parenthesis |
| `VersionText.DottedHereIff` | scripts/release_version.py:29-29 | the same for the pattern of the required version |
| `VersionText.SearchIsLeftmost` | scripts/release_version.py:126-126 | the search gives the match at the leftmost place that has one |
| `VersionText.SubOfSum` | scripts/release_version.py:129-134 | replacing numbers goes through a text piece by piece, where no number is cut |
| `VersionText.SearchPairOfDotted` | scripts/release_version.py:126-140 | replacing every dotted pair on a line leaves the match of the version pattern and its number |
| `VersionText.SearchDottedOfDigits` | scripts/release_version.py:126-140 | replacing every number on a line leaves a dotted pair where there was one |
| `VersionText.SubDigitsTwice` | scripts/release_version.py:129-134 | replacing all numbers twice leaves what the second replacement alone does |
| `VersionText.ParseIntOfDecimal` | scripts/release_version.py:60-65 | a number is read back from its decimal digits |
| `ReleaseVersion.ParseAfterCommit` | scripts/release_version.py:50-80 | parsing after committing v gives v exactly for the files that could be parsed before, for both patterns |
| `ReleaseVersion.ReadsWrittenFile` | scripts/release_version.py:50-80 | a file that sets the three numbers in order, among other lines, is read as that version |
| `ReleaseVersion.CommitsWritten` | scripts/release_version.py:125-134 | committing replaces the number of such a line by that of its word, and nothing else on it |
| `ReleaseVersion.FindsRequired` | scripts/release_version.py:67-74 | a required version is read as it is written |
| `ReleaseVersion.UnmatchedLinesUnchanged` | scripts/release_version.py:125-141 | a line without a match stays as it is, any other is found again with the new numbers |
| `ReleaseVersion.LastCommitWins` | scripts/release_version.py:119-141 | committing w after v leaves the file that committing w alone does |
| `ReleaseVersion.ParseVersionNumber` | scripts/release_version.py:50-80 | the loop over the lines computes the scan the lemmas are about |
| `ReleaseVersion.CommitVersionNumber` | scripts/release_version.py:119-141 | the loop rewrites the file line by line |
| `ReleaseVersion.IncreaseVersionNumber` | scripts/release_version.py:83-92 | in place: the number asked for goes up by one, those after it to zero, and no increase raises the last number |
| `ReleaseVersion.ReleaseKeepsOrder` | scripts/release_version.py:334-373 | one release makes an even master above the old master and develop, and an odd develop above it |
| `ReleaseVersion.ReleaseIsLowest` | scripts/release_version.py:334-373 | a release makes the lowest version that raises the major, minor or patch number it is about, develop goes on with the lowest version above it, and both get a tag |
| `ReleaseVersion.ReleasesKeepOrder` | scripts/release_version.py:334-373 | over any run of releases develop stays odd and above master, master is even and rises, and all tag names ever made are different |
| `ReleaseVersion.TagNamesOneVersion` | scripts/release_version.py:365-373 | two versions have the same tag only if they are the same |
| `ReleaseVersion.VersionAfterRequired` | scripts/release_version.py:95-116 | on every file, committing a required shmdata version leaves the version parsed for the library |
| `ReleaseVersion.RequiredAfterVersion` | scripts/release_version.py:119-141 | committing a version leaves a required one where there was one, and the same one when no line holds both |
| `ReleaseVersion.FilesFollowVersions` | scripts/release_version.py:95-373 | on files with a version, runs of the script, the update of the required shmdata version included, get through if and only if a required version can be read, and then the files show the versions of the run |
| `ReleaseVersion.ReleaseRequiresShmdata` | scripts/release_version.py:95-116 | after a release of switcher cloned from develop, develop and master require the major and minor version of shmdata, when no line holds both versions |
| `LtcDiff.SettlesOnRate` | plugins/timecode/ltc-diff.cpp:183-198 | for any rate and start, consecutive frame numbers make the detector settle on the rate at the second zero frame, within two rounds, and not before |
| `LtcDiff.SettlesOnFrameBefore` | plugins/timecode/ltc-diff.cpp:188-197 | on any frames, the rate settled on is one more than the frame before the second zero |
| `LtcDiff.DetectedForGood` | plugins/timecode/ltc-diff.cpp:188-188 | a settled detector never changes |
| `LtcDiff.FramesApart` | plugins/timecode/ltc-diff.cpp:200-201 | timecodes k frames apart differ by 1000 * k / fps milliseconds |
| `LtcDiff.IndexCountsFrames` | plugins/timecode/ltc-diff.cpp:200-201 | the frames counted from midnight, and the seconds, go up by one frame each time the clock of hours, minutes, seconds and frames goes on by one |
| `LtcDiff.DetectorHearsAll` | plugins/timecode/ltc-diff.cpp:164-211 | in every run the detector of a reader has been fed exactly the frames since it was connected |
| `LtcDiff.ComputeIff` | plugins/timecode/ltc-diff.cpp:101-145 | in every run the readers are compared one by one if and only if a difference has been published since a reader was taken away |
| `LtcDiff.EachTimecodeUsedOnce` | plugins/timecode/ltc-diff.cpp:101-130 | over any run of connections, buffers and ticks, each published value is the distance of two different nonzero timecodes, and no timecode is used twice |
| `LtcDiff.TickPublishesIff` | plugins/timecode/ltc-diff.cpp:101-130 | a tick publishes if and only if both readers are there and have a timecode; it then uses the one of each reader, drops both and keeps all else |
| `LtcDiff.TickLosesTimecodeIff` | plugins/timecode/ltc-diff.cpp:111-123 | exactly when a tick that publishes nothing drops a timecode: that of the first reader, and nothing else |
| `LtcDiff.TimecodeKeptIff` | plugins/timecode/ltc-diff.cpp:164-211 | a buffer leaves the timecode as it was if and only if it is silent, has no frame, or its last frame is midnight; otherwise the timecode is that of its last frame at the rate known then |
| `LtcDiff.PublishesFrameDistance` | plugins/timecode/ltc-diff.cpp:101-130 | two readers settled on one rate that hear timecodes k frames apart publish 1000 * k / rate |
| `LtcDiff.LTCReader.OnData` | plugins/timecode/ltc-diff.cpp:164-211 | silence changes nothing; otherwise every decoded frame goes through the detector and the last timecode, unless zero, is kept |
| `LtcDiff.LTCDiff.Compute` | plugins/timecode/ltc-diff.cpp:101-130 | the callback over the readers, tied to the tick of the runs |
| `LtcDiff.LTCDiff.OnShmdataDisconnect` | plugins/timecode/ltc-diff.cpp:137-145 | the reader goes, and the next difference waits for two timecodes again |
| `IceTransport.ListsSufficeIff` | plugins/pjsip/pj-ice-stream-trans.cpp:125-173 | there are a port and a candidate list for each component if and only if nothing failed, save the candidates of the last; then they are its own |
| `IceTransport.ListsUntilProblem` | plugins/pjsip/pj-ice-stream-trans.cpp:125-158 | the lists are those of the components before the first problem, and an empty one for it |
| `IceTransport.PortsUntilProblem` | plugins/pjsip/pj-ice-stream-trans.cpp:160-173 | the ports are those of the components before the first one without a default candidate |
| `IceTransport.ReceivedInOrder` | plugins/pjsip/pj-ice-stream-trans.cpp:71-79 | what is received for a component is each of its packets once, in the order of arrival |
| `IceTransport.PJICEStreamTrans.GetComponents` | plugins/pjsip/pj-ice-stream-trans.cpp:125-158 | one list for each component, ending with an empty one at the first failure |
| `IceTransport.PJICEStreamTrans.GetFirstCandidatePorts` | plugins/pjsip/pj-ice-stream-trans.cpp:160-173 | one port for each component, ending before the first failure |
| `IceTransport.PJICEStreamTrans.SetDataCb` | plugins/pjsip/pj-ice-stream-trans.cpp:219-223 | refused past the last component; otherwise the entry before the number is set and no other |
| `IceTransport.PJICEStreamTrans.CbOnRxData` | plugins/pjsip/pj-ice-stream-trans.cpp:71-79 | the packet goes to the callback of its component, if there is one, and to no other |
| `IceTransport.PJICEStreamTrans.Receive` | plugins/pjsip/pj-ice-stream-trans.cpp:71-79 | over any mix of packets, writer i gets exactly those of component i + 1, in order |
| `SdpAnswer.AnsweredInOrder` | plugins/pjsip/pj-call.cpp:584-614 | the answer holds, in offer order, exactly the media in which the other side sends |
| `SdpAnswer.AnsweredIff` | plugins/pjsip/pj-call.cpp:588-611 | a media is answered if and only if it has a sendrecv or sendonly |
| `SdpAnswer.AnswerIsRecvOnlyIff` | plugins/pjsip/pj-call.cpp:588-611 | an answered media has a recvonly, no remote candidate, and no sending direction left if and only if the offer had one |
| `SdpAnswer.OthersAreKept` | plugins/pjsip/pj-call.cpp:588-611 | all other attributes and the media line are as offered, in order |
| `SdpAnswer.AnswersAllIff` | plugins/pjsip/pj-call.cpp:584-614 | the answer has as many media as the offer if and only if the other side sends in all |
| `SdpAnswer.AdvertisesItsComponent` | plugins/pjsip/pj-call.cpp:784-807 | answered media k carries the port of component k + 1 and that component's candidates, no others |
| `SdpAnswer.AnswerKeepsTheMedia` | plugins/pjsip/pj-call.cpp:784-807 | final media k has the line and the other attributes of the offered one, in order, a recvonly, and the candidates of its component in order |
| `SdpAnswer.AnswerAttributes` | plugins/pjsip/pj-call.cpp:784-807 | its attributes one by one: the offered ones but the candidates, of which the last sending one says recvonly, then the candidates of its component |
| `SdpAnswer.SelectMedia` | plugins/pjsip/pj-call.cpp:584-614 | makes new media objects for the answer and leaves the offer as it was |
| `SdpAnswer.CreateSdpAnswer` | plugins/pjsip/pj-call.cpp:784-807 | writes port and candidates into the media in place |
| `SdpAnswer.WireWriters` | plugins/pjsip/pj-call.cpp:618-657 | a new writer for each media, called back for the component with its number |
| `SdpAnswer.AnswerOffer` | plugins/pjsip/pj-call.cpp:584-657 | media i of the answer advertises the component whose packets writer i gets |
| `CallList.ListIsOpenCalls` | plugins/pjsip/pj-call.cpp:262-298 | in every run of attempts and releases the list is the calls made and not released, in order, and no contact is in it twice |
| `CallList.CallableIff` | plugins/pjsip/pj-call.cpp:822-1009 | in every run an attempt adds a call if and only if no step fails and every earlier call to the contact has been released |
| `CallList.ReleaseTakesOne` | plugins/pjsip/pj-call.cpp:262-298 | a release takes out the one call with the session and leaves the others in order |
| `CallList.PJCall.MakeCall` | plugins/pjsip/pj-call.cpp:955-1009 | succeeds exactly when no step fails; a failure at any step leaves the list as it was, a success appends one new call to the contact |
| `CallList.PJCall.CreateSipDialog` | plugins/pjsip/pj-call.cpp:869-902 | on failure the call just put in is taken out |
| `CallList.PJCall.SendInviteRequest` | plugins/pjsip/pj-call.cpp:904-953 | on any of three failures the call just put in is taken out, on success it has its session |
| `CallList.PJCall.IsCallValid` | plugins/pjsip/pj-call.cpp:822-867 | refuses when not registered, for a contact in the list, for oneself, for an unknown contact and without shmdata |
| `CallList.PJCall.ReleaseOutgoingCall` | plugins/pjsip/pj-call.cpp:262-298 | removes the first call with the session, or nothing |
| `CodecUtils.CombinationAt` | plugins/pjsip/pj-codec-utils.cpp:141-202 | every choice of a name, payload, media and clock rate is in the result, at index ((r * M + m) * P + p) * E + e |
| `CodecUtils.EachPlaceIsOneChoice` | plugins/pjsip/pj-codec-utils.cpp:141-202 | every place in the result is that of exactly one choice |
| `CodecUtils.NoCodecIff` | plugins/pjsip/pj-codec-utils.cpp:83-122 | exactly which structures give no codec |
| `CodecUtils.CodecTakesFields` | plugins/pjsip/pj-codec-utils.cpp:83-202 | each codec takes one value of each field of the structure, a missing text being "null" and a range its upper end |
| `CodecUtils.FieldsMakeCodec` | plugins/pjsip/pj-codec-utils.cpp:83-202 | each combination of such values is a codec, at its index |
| `CodecUtils.AllNullOrNone` | plugins/pjsip/pj-codec-utils.cpp:61-73 | after the replacement all names are "null", and then nothing has changed, or none is; doing it again changes nothing |
| `CodecUtils.NamedAfterFirst` | plugins/pjsip/pj-codec-utils.cpp:61-73 | the codecs named "null" get the first other name, and nothing else changes |
| `CodecUtils.InspectStruct` | plugins/pjsip/pj-codec-utils.cpp:141-202 | the four loops make a new codec object for each combination, none shared |
| `CodecUtils.ReplaceNullNames` | plugins/pjsip/pj-codec-utils.cpp:61-73 | in place: every "null" name becomes the first other name |

## Left out

- Calls into GStreamer, OpenGL, ImGui, JACK, PulseAudio, PortMidi, PJSIP, libltc, curl and the operating system: their results are inputs of the steps.
- Memory-model races, timeouts and condition variables: a locked region or a callback is one step.
- Saving and loading shmdata connections: the path of raw connections that is written (switcher/switcher.cpp:288) is not the one that is read (switcher/switcher.cpp:211), and the connection methods belong to the quiddities.
- Aliasing in a saved state: get_state grafts the live user-data tree itself, the model its value. JSON text, array tags and the locks of the tree are left out too.
- Quiddities are values inside the container of the model; nothing else holds them. With two equal nicknames the model takes the first, the source whichever its hash map gives.
- Property setters accept every value of the type the property has; a property named by its number, setters that reject a value and properties that come and go with connections are not modelled. A saved `started` that is not a boolean is set like any other property.
- Wrap-around of quiddity ids at the end of their range.
- The text of pipeline descriptions: the parser is represented by whether a description is well formed and by the kinds it uses.
- Switcher.Switcher.GetState: leaves out the readers section and on_saved, which belong to shmdata connections and to the quiddities.
- Switcher.Switcher.LoadState: leaves out the readers section between the starts and on_loaded.
- Switcher.Switcher.Create: leaves out a creation that fails inside the factory or the quiddity, which uses up an id.
- RoundTrip.LoadGives: between reset and load the quiddities kept may change property values and user data, not nickname or custom tree, and no quiddity is created.
- Nicknames.LoneNicknameIff: one quiddity; several with dotted nicknames can also overwrite each other's entries.
- ReleaseVersion.ReleaseRequiresShmdata: a clone that is on master, or a line that holds both versions, is not promised anything.
- What register_bundle and unregister_bundle make of a plugin's own tree (switcher/switcher.cpp:342-374): a step of a history replaces the "bundle" section by any configuration or prunes one name, and makes no pass.
- A configuration read while no kind is known: every factory registers kinds before the first pass (switcher/quiddity/factory.cpp:43-70).
- The triple buffer hands out a pointer; the model's Read returns the frame and says separately when its slot is written again. Reading a slot while it is being drawn is not modelled.
- Reuse of the address of a destroyed window by a new one.
- Pipes and file descriptors of the Executor, the replacement of shmpaths in the command line, and several Executors sharing the one `child_dead`; a failed spawn is taken to leave the pid at zero.
- Git, build and editor commands of the release script, among them a commit that has nothing to commit; digits and spaces are those of ASCII; the merge into master takes the release branch's version file.
- Rounding of doubles: timecodes are real numbers. The LTC difference has the two followers of its connection specification.
- The suffix search for RTP paths (plugins/pjsip/pj-call.cpp:627-640), the release of old incoming calls (plugins/pjsip/pj-call.cpp:513-519), an ICE transport that could not be created, and the making of the outgoing offer (plugins/pjsip/pj-call.cpp:1011-1126), which is one answer of an attempt.
- SdpAnswer.SdpMedia.RemoveCandidates: one loop that keeps the other attributes stands for collecting and removing them.
- The walk over element factories, pads and caps, which concatenates the codecs of the structures it finds.
- Device enumeration, documentation strings, SOAP, audio ring buffers, MIDI and system usage: input and output, or easy members.
