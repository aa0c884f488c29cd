# osbuild, modelled and proved

osbuild builds operating system trees from a manifest.  This project models the parts
of it where mistakes are silent: the cache that many processes share without a
server, the planner and the resumable builder that trust it, the ids that name
content, the loading of manifests, the in-place rewriting of LVM metadata, and four
small protocols and traversals.  The properties are about every run, every
interleaving and every input, crashes and failing steps included.

`dafny verify dfyconfig.toml` checks everything.

| modules | osbuild | what is modelled |
|---|---|---|
| AtomicFile, AtomicSafety, AtomicWitness | util/fscache.py | lock, compare, replace: updates of `cache.size` and `cache.info` by any number of processes |
| CacheEntries, CacheSafety, CacheLoads, CacheAccounting, CacheWitness | util/fscache.py | `store`, `load`, `_remove_lru`, `_rm_r_object` on one directory; a transition system, its invariant, what a load sees, and what `cache.size` means |
| Manifests, Depsolve | pipeline.py | pipelines and their lookup; the planner's stack |
| Trees, Builder, BuildPlan, BuildFailures | pipeline.py, objectstore.py | what an id stands for; the builder that resumes from the store; plans built on a shared cache of limited size, and builds that fail |
| Decimal, JsonText, Dicts, ContentId | pipeline.py, inputs.py, mounts.py, devices.py | JSON texts and the ids hashed from them |
| SortDevices, ManifestV2, ManifestRoundTrip, StageDict | formats/v2.py, pipeline.py | sorting devices, loading and describing a manifest, stages as dictionaries |
| Addressing | formats/v2.py, pipeline.py | why a loaded manifest can be planned and built: its ids stand for one tree each, and nothing is circular |
| FromDescription | main_cli.py | from a description to the exported trees of its targets |
| LvmTokens, LvmText, LvmFaults, LvmRoundTrip, LvmStruct, LvmHeader, LvmArea | util/lvm2.py | printer, tokenizer and parser of metadata, and the texts it fails on; structures, header and area on disk |
| CopyModule | qemu.py | copying kernel modules after their dependencies |
| IdMapsExec | util/linux.py | the two-process handshake around a user namespace |
| HostService | host.py | remote calls, signals and descriptors |
| JsonComm | util/jsoncomm.py | messages inline or through a memory file; descriptor sets |
| Wrappers | | result types |

Concurrent code is a transition system with one step per system call that touches
shared state; a run is a sequence of states, and a crash can be any step.  Code that
updates objects is a class or a method with its loops.  Code made of expressions is
functions.  Hashes, checksums, what a stage does to a tree, `json.loads`, `int` and
`float`, UTF-8 and the answers of the kernel are parameters.

## Where code and comments differ

The model follows the code.

- A negative size update is said to always succeed (osbuild/util/fscache.py:752-753).
  It can be refused (`AtomicWitness.NegativeCanBeRefused`): in every run exactly when
  what remains is above the limit of the process that asks
  (`AtomicSafety.NegativeRefusedExactly`).  With one common limit it always succeeds
  (`AtomicSafety.SizeStaysWithinLimit`).
- Deleting `object.info` first is said to hide an entry from lookups
  (osbuild/util/fscache.py:806-809).  `load` does not look at that file: an entry
  whose remover died half-way can still be loaded (`CacheWitness.LoadCanSeeTornData`).
  A loaded entry is complete exactly when no remover of it died between deleting the
  first data file and the lock file; a caller can tell by `object.info`: while it is
  there, that has not happened (`CacheLoads.LoadSeesCommittedData`).
- A plan relies on what was stored when it was made, and nothing holds those trees.
  A build lacks a build tree or an input only if a tree its plan relies on -- one that
  was stored, or one that is planned and needed -- may be evicted: by other processes,
  or by a commit of the build itself that has to make room (`BuildPlan.BuildAll`).
  Commits evict nothing in an unlimited cache, nor when there is room for all
  checkpoints, which can be checked before.  No less will do.  Whenever a pipeline of
  the plan needs another one, others who keep all that was stored can make the build
  fail (`BuildFailures.KeepingStoredIsNotEnough`, and a complete run in
  `BuildFailures.SkippedThenEvicted`).  With nobody else at work a build can evict the
  build tree it needs next (`BuildFailures.EvictedByOwnCommit`), and one that succeeds
  can evict the tree of a target (`BuildFailures.StoredTreeEvicted`).
- `cleanup` (osbuild/pipeline.py:43-45) maps lazily and never cleans up; a failed
  object stays open for writing, which keeps it invisible.
- `sort_devices` can lose a device named "" (osbuild/formats/v2.py:219), because
  filtering takes that name for a removed one: exactly when its chain of parents does
  not lead back to earlier and earlier positions of the dictionary, so that the first
  pass leaves it (`SortDevices.Sort`, `SortDevices.EmptyNameCanGetLost`).
- `describe` writes neither device parents nor the source epoch
  (osbuild/formats/v2.py:34-42, 125-145), so ids survive a description exactly when
  they play no part (`ManifestRoundTrip.RoundTrip`,
  `ManifestRoundTrip.IdsKeptOnlyIfPlain`).
- A string that is never closed makes the LVM parser loop for ever
  (osbuild/util/lvm2.py:444-451).  This happens exactly for the texts a token-by-token
  scan leaves inside a string, whatever words `int` and `float` take
  (`LvmFaults.DecodeFaults`).
- Descriptors of a reply are checked to avoid an exception in `send`
  (osbuild/host.py:270-273).  More of them than the kernel takes still raise one; the
  service ends and every call from then on fails, exactly in this case
  (`HostService.CallsGetTheirAnswer`).

## Model

| member | source | states |
|---|---|---|
| AtomicSafety.UpdatesAreSequential | osbuild/util/fscache.py:758-779 | in every interleaving, crashes anywhere, the decided updates form one sequential history that answers what was asked, and the file always holds the complete value that history ends with |
| AtomicSafety.EachCallOnce | osbuild/util/fscache.py:765-779 | no update is lost or applied twice: an answered call is in the history once, decided as answered, a call cut short at most once |
| AtomicSafety.OneInside | osbuild/util/fscache.py:375-440 | at most one process is past the re-stat check; it holds the lock of the inode the path names and works from that inode's value |
| AtomicSafety.RetryHasCause | osbuild/util/fscache.py:402-426 | every retry is caused by a replacement another process completed after the file was opened |
| AtomicSafety.SizeStaysWithinLimit | osbuild/util/fscache.py:766-779 | with one limit, `cache.size` stays between zero and it, and no negative update is refused |
| AtomicSafety.NegativeRefusedExactly | osbuild/util/fscache.py:769-774 | in every run, whatever limits the processes use, taking something away is refused exactly when what remains is above the limit of the process that asks |
| AtomicWitness.NegativeCanBeRefused | osbuild/util/fscache.py:769-774 | a run of two processes with different limits in which a negative update is refused |
| AtomicSafety.InfoKeepsEveryKey | osbuild/util/fscache.py:1213-1232 | after any interleaving of assignments to `info`, a key has the value of the last update in the history that mentions it |
| AtomicSafety.InfoKeepsUnknownKeys | osbuild/util/fscache.py:1199-1230 | keys nobody assigns, known or not, keep their value |
| CacheSafety.StepInv | osbuild/util/fscache.py:881-1157 | every step of every process keeps the invariant of the entry protocol and leaves alone what other processes rely on |
| CacheLoads.LoadSeesCommittedData | osbuild/util/fscache.py:1015-1067 | whoever holds an entry open finds under that name what one store committed under it; the data is complete exactly when no remover of that entry died half-way before, and always while `object.info` is there |
| CacheLoads.LoadIsComplete | osbuild/util/fscache.py:1015-1067 | in runs where no remover dies half-way the data is complete |
| CacheLoads.HeldThroughout | osbuild/util/fscache.py:1038-1067 | from the moment `load` yields until the caller lets go, the name leads to the same directory with the same content |
| CacheLoads.BrokenExactly | osbuild/util/fscache.py:806-835 | the entries recorded as broken are exactly those whose remover died between deleting the first data file and the lock file |
| CacheLoads.RunTorn | osbuild/util/fscache.py:806-835 | in every run broken entries are incomplete, and so is an entry whose remover is past its first data file; no broken entry is still being made |
| CacheWitness.LoadCanSeeTornData | osbuild/util/fscache.py:798-837 | a run in which a load finds an incomplete entry because its remover died half-way |
| CacheSafety.RemovalStaysOnEntry | osbuild/util/fscache.py:798-837 | deletions by path never touch another entry; if a newer one has taken the name, the final rmdir fails and changes nothing |
| CacheSafety.NameChangesOnlyWhenEmpty | osbuild/util/fscache.py:976-993 | a name changes hands or goes away only when the entry it led to is an empty directory |
| CacheSafety.CommitIsWhatWasFilled | osbuild/util/fscache.py:943-993 | what becomes visible under a name is what the caller filled in, committed by the process that alone holds its lock |
| CacheAccounting.SizeIsAccounted | osbuild/util/fscache.py:943-1003 | in every run the size is at most committed plus in flight plus lost to calls cut short, exactly that until the first eviction, never negative nor above the limit |
| CacheAccounting.SubtractingSucceeds | osbuild/util/fscache.py:996-1003 | in every run giving room back is never refused and subtracts the amount, or leaves zero |
| CacheAccounting.SizeAtRest | osbuild/util/fscache.py:943-1003 | without crashes and refusals, the size at rest is the sum of the committed sizes |
| Manifests.GetByName | osbuild/pipeline.py:720-727 | looking up a pipeline's name finds that pipeline |
| Depsolve.StageNeedsMeaning | osbuild/pipeline.py:648-658 | the walk back over the stages needs exactly the inputs of stages no stored stage makes unnecessary |
| Depsolve.EarlierIsAcyclic | osbuild/pipeline.py:618-658 | manifests whose references lead to earlier pipelines are acyclic, whatever the targets |
| Depsolve.Push | osbuild/pipeline.py:643-658 | the pushes of one round add exactly the needs of the pipeline |
| Depsolve.Depsolve | osbuild/pipeline.py:610-660 | ends whenever what the targets lead to is acyclic; fails exactly when a reachable reference is missing; otherwise returns exactly the reachable unstored pipelines, no id twice, each dependency before its users; the answer is what the rounds of the loop make of the targets |
| Depsolve.NeverEnds | osbuild/pipeline.py:624-658 | when the targets lead to a chain of needs that never ends, no number of those rounds empties the stack: the loop never ends, unless it raises an error |
| Depsolve.EndsOtherwise | osbuild/pipeline.py:624-658 | when no such chain is reachable, what is reachable is acyclic, so the loop ends |
| Trees.ScratchIsDenotation | osbuild/pipeline.py:463-501 | the tree an id stands for is that of a build from the empty tree |
| Trees.DenotationExists | osbuild/pipeline.py:97-111 | when references lead to earlier entries and equal ids mean equal recipes, every id has the tree of its recipe, and ids of no entry keep theirs; Addressing.LoadedDenotes has the premise for loaded manifests |
| Addressing.LoadedDenotes | osbuild/formats/v2.py:331-401 | in a loaded manifest every id stands for one tree, provided that mount targets are no device ids, builds given by id and not by name lead to earlier pipelines, and no input is a pipeline without stages |
| Addressing.LoadedIsBuildable | osbuild/formats/v2.py:331-401 | with the last two provisos, and no pipeline named like the id of one, a loaded manifest meets what planner and builder ask for: references are ids, and nothing is circular for any targets |
| Builder.ObjectStore.Contains | osbuild/objectstore.py:386-397 | answers whether the id is visible, as a finished tree of this run or in the cache |
| Builder.ObjectStore.Get | osbuild/objectstore.py:405-417 | finds a readable object holding the tree of the id, exactly when one is visible |
| Builder.ObjectStore.New | osbuild/objectstore.py:419-434 | a new object is empty, writable and not visible |
| Builder.ObjectStore.Commit | osbuild/objectstore.py:436-455 | a commit keeps every visible object right; with room for the tree it is kept and no entry is evicted, otherwise entries are evicted first and the tree may be dropped, and only what may be evicted is lost |
| Builder.Object.Finalize | osbuild/objectstore.py:243-250 | the object becomes readable |
| Builder.Resume | osbuild/pipeline.py:429-438 | starts from the latest stored stage: the tree is the one before the first stage left to run, and exactly the stages after it are left, in order |
| Builder.RunOne | osbuild/pipeline.py:463-499 | a successful stage takes the tree one stage on and commits it exactly when it is a checkpoint; a stage runs only with all inputs |
| Builder.BuildStages | osbuild/pipeline.py:398-503 | whatever happens every visible object holds the tree of its id; on success the tree is the one of a build from scratch; a failed pipeline does not become visible under its own id |
| BuildPlan.LackHasCause | osbuild/pipeline.py:412-424 | a pipeline whose needs are covered lacks a tree only if that very tree, or a stored tree of one of its own stages, may be evicted, by other processes or by commits |
| BuildPlan.BuildAll | osbuild/pipeline.py:679-693 | building a plan in order never lacks a build tree or an input unless one of the trees it relies on -- stored at planning, or planned and needed -- is evicted by others or, without room for all checkpoints, by a commit of this build; which scripts of others, and which first commits, make it fail |
| BuildPlan.PlanAndBuild | osbuild/pipeline.py:610-693 | planning and building together: fails at once exactly for a missing reference, lacks a tree only if one it relies on may be evicted, and on success with nothing that may be evicted the tree of every target is there to stay |
| BuildFailures.KeepingStoredIsNotEnough | osbuild/pipeline.py:407-424 | for every plan in which a pipeline needs another one that was not stored, and every choice of failing stages, a build that fails although others keep all that was stored; for want of the build tree whenever that is what is needed |
| BuildFailures.SkippedThenEvicted | osbuild/pipeline.py:407-424 | a manifest, its plan and a run of it in which a build tree is lacking although nothing stored was evicted |
| BuildFailures.EvictedByOwnCommit | osbuild/objectstore.py:436-455 | a manifest, the plan the planner makes of it and a run of it, with nobody else at work, in which a commit evicts the build tree of the next pipeline |
| BuildFailures.StoredTreeEvicted | osbuild/objectstore.py:436-455 | a build that succeeds and evicts another tree that was stored |
| FromDescription.LoadedIsComplete | osbuild/main_cli.py:190-195 | for a loaded manifest the planner fails exactly when a target does not exist, which is what is checked before |
| FromDescription.Export | osbuild/main_cli.py:55-63 | what is exported for each target is the tree of a build from scratch; it succeeds when the trees of all targets are there to stay |
| FromDescription.BuildDescription | osbuild/main_cli.py:187-256 | from any description to the exported trees: what is exported is always the tree of a build from scratch; it fails only because the description cannot be loaded, a target is unknown, a stage failed or a tree may have been evicted; when nothing can go wrong all targets with stages are exported |
| JsonText.PutUnique | osbuild/pipeline.py:97-111 | a JSON text (RFC 8259, section 3), floats and escapes included, is read off the front of any text in one way only |
| JsonText.TextUnique | osbuild/pipeline.py:97-111 | concatenated texts determine their values |
| Dicts.SortedInOrder | osbuild/inputs.py:56-59 | `sort_keys` lists the items in the order of their keys |
| Dicts.ObjectFaithful | osbuild/inputs.py:56-59 | two dictionaries have the same object exactly when they are equal |
| ContentId.DeviceIdFaithful | osbuild/devices.py:42-51 | equal device ids exactly for equal recipes, parents included |
| ContentId.InputIdFaithful | osbuild/inputs.py:50-60 | equal input ids exactly for equal recipes |
| ContentId.MountIdFaithful | osbuild/mounts.py:38-48 | equal mount ids exactly for equal recipes, or when the target of one is spelled like the device id of the other |
| ContentId.StageIdFaithful | osbuild/pipeline.py:97-111 | with targets that are no device ids, equal stage ids exactly for equal recipes |
| ContentId.SameStageSameId | osbuild/pipeline.py:97-111 | equal recipes have equal ids under any hash |
| ContentId.ChainFaithful | osbuild/pipeline.py:375-396 | equal pipeline ids exactly for equally long chains of equal recipes |
| ContentId.IdsDistinct | osbuild/pipeline.py:390-396 | no two stages of a pipeline share an id |
| ContentId.AmendKeepsLinks | osbuild/pipeline.py:124-137 | amending a stage keeps the base links exactly when it is the last one or its id stays |
| ContentId.Pipeline.AddStage | osbuild/pipeline.py:390-396 | a new stage is based on the id of the one before |
| ContentId.Pipeline.AmendLast | osbuild/pipeline.py:124-137 | inputs, devices and mounts of the last stage change nothing about the links |
| SortDevices.Sort | osbuild/formats/v2.py:186-225 | ends for every map; "missing parent" exactly when a parent is no key; otherwise "cycle" exactly when a chain of parents never ends; otherwise every device once, unchanged, parents first, but for a device named "", which is missing exactly when the first pass does not place it |
| SortDevices.EmptyNameCanGetLost | osbuild/formats/v2.py:213-219 | a device named "" that is lost although its parent is there |
| SortDevices.PlacedEnds | osbuild/formats/v2.py:213-217 | from every placed device the chain of parents ends |
| ManifestV2.LoadInput | osbuild/formats/v2.py:246-280 | succeeds exactly when every name and source is known; references, given as a dictionary or a list, are under the ids they resolve to |
| ManifestV2.ListedRefs | osbuild/formats/v2.py:255-265 | a list of references becomes a dictionary in which a repeated id keeps its last options |
| ManifestV2.LoadDevices | osbuild/formats/v2.py:228-243 | succeeds exactly when the devices can be ordered; each parent is one of the devices before |
| ManifestV2.LoadMounts | osbuild/formats/v2.py:283-304 | fails exactly for a repeated name or an unknown device |
| ManifestV2.LoadStage | osbuild/formats/v2.py:307-328 | succeeds exactly when its parts load; keeps info, options and base |
| ManifestV2.LoadPipeline | osbuild/formats/v2.py:331-353 | succeeds exactly when its references, name and stages allow; each stage is based on the one before |
| ManifestV2.Load | osbuild/formats/v2.py:356-401 | pipelines in order, each resolved against those before, and paired with the runner of its build pipeline |
| ManifestRoundTrip.RoundTrip | osbuild/formats/v2.py:18-175 | describing and loading again keeps names, order, every stage id, build references and runners, when no epoch and no mounted device parent is involved |
| ManifestRoundTrip.IdsKeptOnlyIfPlain | osbuild/formats/v2.py:34-49 | with an injective hash the ids are kept only then |
| ManifestRoundTrip.NeverFails | osbuild/formats/v2.py:356-401 | loading the description of a loaded manifest does not fail |
| ManifestRoundTrip.Reload | osbuild/formats/v2.py:356-401 | the two together |
| StageDict.FromDict | osbuild/pipeline.py:155-190 | rebuilds devices in order, parents and mount devices by name |
| StageDict.DictRoundTrip | osbuild/pipeline.py:139-190 | the stage comes back unchanged exactly when its devices are stored parents first |
| StageDict.LoadedStageKeepsId | osbuild/pipeline.py:155-190 | a loaded stage keeps its id through the dictionary, with device parents too |
| LvmTokens.TokenizeText | osbuild/util/lvm2.py:415-430 | the substitutions and the split give the words of the cleaned text without its comments |
| LvmText.Parser.ParseSection | osbuild/util/lvm2.py:475-482 | the loop over the shared tokens reads exactly the section the grammar gives |
| LvmText.DecodeData | osbuild/util/lvm2.py:494-497 | the loops read what the grammar gives, with any reader of numbers; the first token is the name and, unless it closes the section, the first key |
| LvmFaults.StrFaults | osbuild/util/lvm2.py:444-451 | reading a string never ends exactly when no quote follows |
| LvmFaults.DecodeFaults | osbuild/util/lvm2.py:439-497 | whatever words are numbers, decoding a text loops for ever exactly when a token-by-token scan ends inside a string, fails exactly when it ends out of place, and succeeds on all other texts |
| LvmFaults.LastQuoteOpens | osbuild/util/lvm2.py:444-451 | a last quote that opens a string makes decoding loop for ever, whatever follows |
| LvmRoundTrip.WordsVal | osbuild/util/lvm2.py:513-524 | the printed text of a value splits into its tokens |
| LvmRoundTrip.ValueParses | osbuild/util/lvm2.py:475-492 | the tokens of a value are parsed back into it, whatever follows |
| LvmRoundTrip.RoundTrip | osbuild/util/lvm2.py:402-526 | printing and parsing gives back the name and the same ordered nested value |
| LvmRoundTrip.Metadata.RenameVg | osbuild/util/lvm2.py:393-400 | the section moves to the front under the new name, the rest stays in order |
| LvmRoundTrip.RenameRoundTrip | osbuild/util/lvm2.py:393-411 | after renaming to a fresh name and printing, parsing finds the new name first and all else unchanged |
| LvmStruct.PackUnpack | osbuild/util/lvm2.py:64-88 | for every layout, unpacking gives back what was packed, whatever follows |
| LvmHeader.LocsReturn | osbuild/util/lvm2.py:272-280 | the list of locations is read back up to the zero that ends it |
| LvmHeader.ChecksumOfItself | osbuild/util/lvm2.py:348-367 | the stored checksum is the one of bytes 4 to 512 of the header it is stored in |
| LvmHeader.ImageReturns | osbuild/util/lvm2.py:322-326 | with at most 19 non-zero locations a written header is read back |
| LvmArea.MDAHeader.Write | osbuild/util/lvm2.py:348-371 | the header is rendered, signed and put at its start |
| LvmArea.MDAHeader.WriteMetadata | osbuild/util/lvm2.py:336-346 | metadata and header are written, size and checksum of the location updated |
| LvmArea.MDAHeader.Read | osbuild/util/lvm2.py:322-326 | reads the fields and the locations that follow |
| LvmArea.WrittenRanges | osbuild/util/lvm2.py:336-371 | whatever the bytes of the header, both ranges hold what was written, and every other byte is unchanged |
| LvmArea.AreaReturns | osbuild/util/lvm2.py:322-371 | the area read again has the header with its checksum, the locations and the bytes of the metadata |
| LvmArea.WriteThenRead | osbuild/util/lvm2.py:328-371 | written metadata is read back: same name, same value, same header and locations |
| CopyModule.InitrdBuilder.Copy | osbuild/qemu.py:121-144 | ends on every graph; consecutive numbers, each found module once; a found dependency comes first unless it leads back to the module |
| CopyModule.CopyAll | osbuild/qemu.py:121-144 | over any sequence of calls, exactly what the requested modules lead to; in every graph dependencies first unless they lead back, in acyclic graphs always |
| CopyModule.AcyclicDepsFirst | osbuild/qemu.py:131-142 | in acyclic graphs nothing leads back, so every found dependency has a smaller number |
| CopyModule.NumberLast | osbuild/qemu.py:131-142 | what has no number yet when a module is numbered leads back to it |
| IdMapsExec.ExecOnlyWithMaps | osbuild/util/linux.py:491-534 | the program starts only after both maps were installed |
| IdMapsExec.FallbackMeansNoExec | osbuild/util/linux.py:517-528 | `None` means the child was reaped and never started the program |
| IdMapsExec.NeverStuck | osbuild/util/linux.py:495-531 | until the parent is done one of the two can go on: neither waits on a pipe for ever |
| IdMapsExec.RunsAreShort | osbuild/util/linux.py:491-534 | every run ends, after at most twenty steps |
| IdMapsExec.ChildIsAnswered | osbuild/util/linux.py:505-530 | a waiting child is told, or finds the pipe closed, once the parent only waits for it |
| HostService.CallsGetTheirAnswer | osbuild/host.py:254-391 | every completed call returned what the service answered to that call, after delivering its signals once and in order, unless the reply had more descriptors than can be sent; exactly that call and all later ones fail |
| HostService.ChannelsAreEmpty | osbuild/host.py:351-384 | between calls both channels are empty, and no call is unanswered unless the service has stopped |
| HostService.CallsAreServed | osbuild/host.py:254-304 | while a call waits a step that moves it on is always possible: the service is at work on it, the answer is on its way, or the service ends |
| HostService.DescriptorsClosedOnce | osbuild/host.py:266-320 | each reply descriptor is tried to close once and in order on every path |
| HostService.MethodReturns | osbuild/host.py:80-112 | an encoded call decodes to its name and arguments; an empty name is refused |
| HostService.ExceptionReturns | osbuild/host.py:144-163 | an encoded exception decodes to itself |
| JsonComm.MarkerIsNoJson | osbuild/util/jsoncomm.py:36-38 | the marker is nothing a payload is printed as, and does not begin as a JSON text does (RFC 8259, sections 2 and 3) |
| JsonComm.Socket.Send | osbuild/util/jsoncomm.py:417-478 | sends inline or through a memory file; succeeds exactly within the kernel's limit of descriptors |
| JsonComm.Socket.PeekSize | osbuild/util/jsoncomm.py:367-375 | doubling ends with a large enough buffer, less than twice too large |
| JsonComm.Socket.Recv | osbuild/util/jsoncomm.py:344-415 | the next message is the oldest one sent, with its descriptors in order, either way |
| JsonComm.FdSet.Steal | osbuild/util/jsoncomm.py:96-113 | a stolen descriptor leaves the set, the others keep their places |
| JsonComm.FdSet.Close | osbuild/util/jsoncomm.py:66-78 | closes what is left, once |
| JsonComm.CloseTwice | osbuild/util/jsoncomm.py:66-78 | every received descriptor is closed once or stolen, and closing again closes nothing |

## Left out

- AtomicFile.Next: opening, locking and comparing the fresh temporary file is one step, because nobody else knows its name; errors of system calls the code does not handle, and NFS `ESTALE`, do not occur.
- CacheEntries.Next: one number stands for a store's uuid, its directory and the inode of its lock file, all of which are fresh; updating `cache.size` is one step, which AtomicSafety justifies; all processes use one limit; the listing of candidates is any list sorted by time, which covers every race of the real one.
- CacheEntries.Next: exceptions inside `_atomic_dir`, an incompatible cache version, staging entries, and the deletion of several data files one by one beyond "some" and "all" are not distinguished.
- CacheLoads.LoadSeesCommittedData: that `object.info` is gone does not tell a caller whether the data is; names starting with `uuid-` are not loaded.
- CacheAccounting.SizeIsAccounted: once an eviction ran it is an upper bound, because evictions subtract the whole entry while stores account the data alone.
- Depsolve.Depsolve: what is stored does not change while the plan is made.
- Builder.BuildStages: a stage is a function of the tree below, the build tree and its inputs that may fail at any time; building in a virtual machine, metadata of objects, times of files and the host tree's content are not modelled.
- Builder.ObjectStore.Commit: which entries a commit evicts, and how much room that makes, is arbitrary; that entries held open are spared, and exceptions out of an eviction, which end a build, are left out here (CacheEntries has both).
- BuildPlan.BuildAll: references are ids and no pipeline is named like another one's id, because `Manifest.get` prefers names; downloading sources is left out; others may evict a tree even while it is being read, which the locks of the real cache prevent.
- BuildFailures.KeepingStoredIsNotEnough: when it is an input that is lacking, a stage that fails before asking for it ends the build as well.
- Addressing.LoadedDenotes: a build given by the id of a pipeline that does not come before, and an input that is a pipeline without stages, whose id is `None`.
- Addressing.LoadedIsBuildable: the same, and pipelines named like the id of one.
- FromDescription.BuildDescription: the provisos of these two; what is in the cache, and what others add, is the tree of its id; checkpoint patterns, sources and the copying of files to the output directory are left out.
- JsonText.PutUnique: strings with lone surrogates are left out (two of them are printed like one other character); the dictionaries nested in an option are taken in sorted order.
- ContentId.StageIdFaithful: SHA-256 is an injective function on texts.
- ManifestV2.LoadInput: references of a pipeline to itself by name, list elements that are neither strings nor dictionaries, and missing module information are left out; when two names lead to one id either description may win.
- ManifestRoundTrip.RoundTrip: build references of the first description are names, ids exist and are distinct, and none equals a name.
- StageDict.FromDict: paths relative to the library directory, capabilities and the checkpoint flag are carried along unchanged by the original and are not part of this model.
- LvmText.DecodeData: which words are numbers, and which, is up to the reader of numbers; the round trips ask only that it reads what `str` prints (`LvmRoundTrip.PlainReadsInts` has one that does).
- LvmRoundTrip.RoundTrip: keys and words without the characters the tokenizer rewrites, strings with single blanks, arrays of integers and strings.
- LvmRoundTrip.RenameRoundTrip: one renaming; the object does not update the name it remembers, so a second one fails.
- LvmArea.WriteThenRead: CRC-32 and UTF-8 are parameters; metadata that wraps around its area is not part of this model.
- HostService.CallsGetTheirAnswer: requests and signals carry no descriptors, replies can be serialised, and `on_signal` does not raise, which would leave the answer in the channel (osbuild/host.py:377-378); the limit on descriptors is the only one on a send.
- JsonComm.Socket.Recv: packets that were not sent by this protocol, and the `BufferError` they lead to, are left out.
- Sandboxes, mounts, loop devices, virtual machines and the dependency solver: behaviour of the kernel and of other programs.
- Schema validation, module loading, sources, monitors and the rest of the command line: they would add only easier members.
