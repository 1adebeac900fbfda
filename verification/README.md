# SimConnect client: a verified model

This project models the stateful core of a Python client for Microsoft Flight Simulator's
SimConnect.dll and proves its promises with Dafny. `dafny verify dfyconfig.toml` checks everything.

Four parts:

- **Subscriptions and the remote's definitions.** The client keeps tables of subscriptions, variable
  slots and waiting gets; the DLL keeps data definitions that must agree with them. `Remote.dfy` is the
  DLL's side, `RegistryState.dfy` and `Client.dfy` say what every operation does to the tables,
  `Registry.dfy` and `SimConnect.dfy` are the objects that do it in place. `Keys.dfy` says which names
  mean the same variable and `Asked.dfy` what a field is to be in terms of what the caller wrote;
  `Subscribed.dfy`, `Entries.dfy`, `Unsubscribed.dfy`, `Sessions.dfy` and `Effects.dfy` say what the
  calls achieve. `Tables.dfy`, `TablesKept.dfy` and `Session.dfy` hold for any HRESULTs and any keys.
  `Actions.dfy` takes every step apart into elementary actions; over these `Meaning.dfy` proves what
  ids stand for and `HalfWay.dfy` when packed definitions are whole. `Mirror.dfy`, `MirrorKept.dfy`,
  `MirrorRuns.dfy`, `Applied.dfy`, `RestoreExact.dfy`, `RestoreRuns.dfy` and `Recovery.dfy` prove when
  and how often each subscription is defined, `RegistryRuns.dfy` and `RequestsOpen.dfy` the same for the
  registry and the open requests; `MirrorLimits.dfy` shows what a second subscription to one variable
  does. `Delivery.dfy`, `Mail.dfy`, `InFlight.dfy`, `EmptyLetters.dfy` and `SyncRoundTrip.dfy` follow
  the data from the remote's definition to the callback or the waiting get, and from a set to its write,
  with messages that arrive late, out of order and more than once.
- **The write queue and the background pump.** `WriteQueue.dfy` is the queue object; `Pump.dfy` is a
  step system of any number of writers, the pump threads, one serialised controller and a DLL that may
  hang. `PumpSafety.dfy`, `PumpOps.dfy`, `PumpFlags.dfy`, `PumpTheorems.dfy`, `PumpEvents.dfy`,
  `PumpDrain.dfy`, `PumpHung.dfy`, `PumpStray.dfy` and `PumpLate.dfy` prove accounting, exactly-once
  completion, order, what the flags say of the events so far, drain before exit, what a known hang still
  lets through, and what becomes of a write that comes after a lost session or a close.
- **The payload codec.** `Bytes.dfy`, `Parsing.dfy` and `Fields.dfy` work on bytes.
- **The timed parts.** `Debounce.dfy` (restore timer) and `Watchdog.dfy` (heartbeats), over integer
  milliseconds.

## Conventions

- One API call, one handler or one restore pass is one atomic step. In the pump, one step is a block
  under the queue lock, a test of the flags, or the issue of one native call: the guard that protects a
  call is a step of its own, and so is each of the two tests a writer makes. In the timer, the two halves
  of close() are two steps.
- The DLL answers from a script of HRESULTs, one per call on an open session and 0 past its end; a call
  without a session fails. "HRESULT 0" means a script of zeros; the table theorems take any script.
- A slot object is its place among all slots ever made, so two names for one object stay one object and
  a slot displaced from the registry stays what it was.
- A dictionary iterated by the code is walked in the order of a parameter that lists its keys once each.
- The id ranges are part of a legal run: subscription ids below 1000, variable ids below 20000,
  get_many ids below 50000.
- A write is the call of SetDataOnSimObject: the definition it goes through and its bytes. How Python turns
  an integer into a float is a parameter.
- Memory past the modelled bytes reads as zero. Floats are their bit patterns, text its bytes, and the
  plausibility test of a value is a parameter.
- The pump's controller is serialised, and `open()` is called proper when the pump flag is down,
  automatic reconnection is off, or the DLL is known to hang. The flag agrees with the thread in every
  run of proper opens, and an improper one can always break it.

## Where the code and its own words differ

- get_many is documented with the field format of subscribe_many; the code rejects string fields
  (`simconnect_native/fields.py:52-56`), and so does the model.
- `_prepare_definition` is described as clearing old definitions before a reconnect adds to them. A
  restore resets every flag first, so it clears nothing there: on the same session a restore adds one
  more copy to every subscription whose slot was not displaced (`RestoreRuns.RestoresInOrderAdd`).
- Displacing a slot by subscribing to its variable again is not mentioned anywhere; it costs the first
  subscription its data after a reconnect (`MirrorLimits.DuplicateKeyLosesTheFirst`), and on the same
  session when it is recovered, although the recovery reports success (`Recovery.RecoveryLosesTheFirst`).
- Unsubscribing the first of two subscriptions to one variable takes the slot of the second from the
  registry; that one stays live but gets no definition after a reconnect
  (`Unsubscribed.UnsubscribeStrandsTheOther`).
- The callback of a single subscription ignores a message without values (`simconnect_native/parsing.py:171`);
  that of a packed one does not look, and on such a message reads the memory behind its header
  (`InFlight.OnlyEmptyLettersMislead`, `EmptyLetters.AnEmptyLetterArises`).
- A recovery is to cancel a subscription completely before it applies it again
  (`simconnect_native/subscribe.py:138-149`); it ignores whether the clear succeeded, so it may leave two
  copies and report success (`Recovery.RecoveryLeavesExactly`).
- flush_write_queue is to return when every submitted write has been executed
  (`simconnect_native/write_queue.py:182-183`). After a stop that timed out it may return earlier; it is
  exact whenever `native_hung` is False (`PumpTheorems.FlushIsExact`, `PumpTheorems.FlushWhenShort`).
- Once a hang is known neither SimConnect_Open nor CallDispatch is to be called again
  (`simconnect_native/client.py:185-190`). A thread that is past its test of `_native_hung` still makes its
  call, and only such a thread (`PumpHung.HungIsContained`, `PumpHung.DispatchAfterTheHang`).
- The timer skips when OPEN has restored everything less than 8 s ago
  (`simconnect_native/subscribe.py:511-515`), also if that was in an earlier session
  (`Debounce.FiringSkipsExactly`).

## Model

| member | source | states |
|---|---|---|
| Parsing.HighByteCheckIsRedundant | simconnect_native/parsing.py:70-80 | the test of the three high bytes for a length below 256 never changes the verdict: a length prefix is recognised exactly when the little-endian word is in 1..4096 |
| Parsing.StringDecoderRefinesTwoCases | simconnect_native/parsing.py:94-106 | the four-way fallback equals a two-case decoder: a word n in 1..4096 gives the n bytes behind it cut at NUL, anything else is a C string |
| Parsing.StringRoundTrip | simconnect_native/write_queue.py:293-297 | set_string packs exactly the texts whose length and terminator fit a C int, and what it packs reads back as the text, whatever memory follows, if and only if the text has no NUL and at most 4095 bytes |
| Parsing.CStringReadsBack | simconnect_native/parsing.py:39-48 | a C string of three bytes or more, or of two whose second is at least 0x10, reads back as itself whatever follows it |
| Parsing.CStringIsReliableExactlyWhenSafe | simconnect_native/parsing.py:83-106 | exactly those C strings read back under every continuation; the empty, the one-byte and the remaining two-byte strings are lost to trailing zeros |
| Parsing.UnsafeCStringIsLost | simconnect_native/parsing.py:109-119 | for every other C string there is a continuation under which it is not read back |
| Parsing.NumericRoundTrip | simconnect_native/parsing.py:122-134 | each numeric value reads back from its encoding with its own datatype, whatever follows, and its size is the one in the datatype table |
| Parsing.SetValueRoundTrip | simconnect_native/write_queue.py:273-290 | set packs a value for exactly the datatypes 1 to 4, into four bytes for 1 and 3 and eight for 2 and 4; read back with the same datatype, whatever follows, they are the float of that width, or the number of the field's range congruent to the integer, itself if it fits |
| Fields.ParseFields | simconnect_native/fields.py:29-44 | succeeds exactly for well-formed descriptors and yields one parsed field for each, in order, with the key, name, unit and datatype the caller wrote, FLOAT64 where no datatype is given |
| Fields.BuildFieldLayout | simconnect_native/fields.py:47-59 | succeeds exactly for all-numeric lists and puts slice i at the total size of the first i fields |
| Fields.LayoutTiles | simconnect_native/fields.py:47-59 | the slices are contiguous from 0, disjoint and end at the total size |
| Fields.LayoutRoundTrip | simconnect_native/fields.py:47-59 | reading every slice of the packed values gives each value back, also when more bytes follow |
| Fields.SplitNumericStringFields | simconnect_native/fields.py:62-78 | succeeds exactly when every field is numeric or a string, and splits the list into both halves in order |
| Fields.SplitKeepsOrder | simconnect_native/fields.py:62-78 | the split loses no field, copies none and keeps the order: one half is the fields at exactly the positions of the string datatypes 5 to 11, ascending, the other those at all other positions |
| Fields.NumericHalfHasLayout | simconnect_native/fields.py:62-78 | the numeric half of a supported list always has a layout |
| Registry.Registry.constructor | simconnect_native/registry.py:33-42 | a new registry is empty and its three id ranges start at 1, 1000 and 20000 |
| Registry.Registry.AllocSubscriptionId | simconnect_native/registry.py:44-47 | returns the next subscription id and advances only that counter |
| Registry.Registry.AllocGetManyId | simconnect_native/registry.py:49-53 | returns the next get_many id and advances only that counter |
| Registry.Registry.BindSubscriptionVar | simconnect_native/registry.py:55-75 | registers a new slot under the id and the key, overwriting the slot of an equal key, and keeps variable ids above it |
| Registry.Registry.GetOrCreateVar | simconnect_native/registry.py:77-97 | finds the slot of an equal key or registers one under the next variable id |
| Registry.Registry.GetVarByDefineId | simconnect_native/registry.py:99-103 | goes from the id to its key and from there to whatever slot the key has now |
| Registry.Registry.ReleaseDefineId | simconnect_native/registry.py:105-108 | forgets the id and the key it leads to, whoever owns the key by now |
| Registry.Registry.DefinedDefineIds | simconnect_native/registry.py:115-116 | the ids of the registered slots that are marked as defined, one for each of their keys |
| Registry.Registry.ResetDefinedFlags | simconnect_native/registry.py:110-113 | clears the flag of exactly the slots that are still registered, in a loop over them |
| Keys.SameSlotExactly | simconnect_native/registry.py:10-11 | two variables share a slot if and only if their datatypes are equal, their units are the same string once the white space around them is off, and their names are the same up to that and ASCII case |
| RegistryRuns.IdsLeadToTheirOwnSlots | simconnect_native/registry.py:55-113 | in every run with distinct live keys, whatever the DLL answers, the id of a live single subscription leads to its key, the key to its own slot and the slot back to the id |
| MirrorKept.WiringSurvivesExactlyFreshKeys | simconnect_native/registry.py:55-75 | after a bind every live single subscription still owns the entry of its key if and only if no live one had the new key |
| SimConnect.SimConnect.constructor | simconnect_native/client.py:69-106 | a new client has empty tables and no session |
| SimConnect.SimConnect.PrepareDefinition | simconnect_native/subscribe.py:374-383 | clears the definition and the flag of the slot the id looks up, if it is marked as defined; the remote only on an open session |
| SimConnect.SimConnect.EnsureVarDefined | simconnect_native/sync_io.py:287-300 | adds the variable to its definition unless it is marked as defined, and marks it only when the call succeeds |
| SimConnect.SimConnect.RequestTypeForSubscription | simconnect_native/subscribe.py:387-405 | asks for TYPE data under the offset id once, and only for a defined slot |
| SimConnect.SimConnect.RequestBoth | simconnect_native/subscribe.py:432-442 | both requests of a complete definition, and the mark only when both succeed |
| SimConnect.SimConnect.ApplySubscription | simconnect_native/subscribe.py:428-442 | prepare, define, request: the new tables and whether no call failed are what ApplyAt says |
| SimConnect.SimConnect.AddFields | simconnect_native/subscribe.py:447-457 | the loop over the fields adds them in order until a call fails |
| SimConnect.SimConnect.ApplySubscriptionMany | simconnect_native/subscribe.py:444-468 | the same for a packed subscription, whose slot is marked only when every field was added |
| SimConnect.SimConnect.RestoreBatch | simconnect_native/subscribe.py:527-535 | one batch applies its entries in order, going on after a failing one |
| SimConnect.SimConnect.RestoreInBatches | simconnect_native/subscribe.py:524-537 | the nested batch-of-10 loops equal one walk through the snapshot, with ceil(n/10) - 1 pauses for n > 0 |
| SimConnect.SimConnect.RestoreSubscriptions | simconnect_native/subscribe.py:519-537 | reset every registered flag, then apply every entry of the snapshot once, in order |
| SimConnect.SimConnect.Subscribe | simconnect_native/subscribe.py:211-238 | refuses negative arguments; otherwise enters the subscription under the next id and applies it if the session is ready; the entry stays when that fails |
| SimConnect.SimConnect.SubscribeManyNumeric | simconnect_native/subscribe.py:308-337 | enters a packed subscription with an unregistered slot and the layout of its fields |
| SimConnect.SimConnect.SubscribeStringFields | simconnect_native/subscribe.py:296-302 | the string children get consecutive ids, until one raises |
| SimConnect.SimConnect.SubscribeNumericFields | simconnect_native/subscribe.py:287-294 | the numeric child, only if there are numeric fields |
| SimConnect.SimConnect.FinishComposite | simconnect_native/subscribe.py:296-306 | the composite is entered with all its children, or not at all |
| SimConnect.SimConnect.SubscribeComposite | simconnect_native/subscribe.py:276-306 | the composite takes the first id and its children the following ones |
| SimConnect.SimConnect.SubscribeMany | simconnect_native/subscribe.py:259-306 | numeric lists become one packed subscription, lists with strings a composite |
| SimConnect.SimConnect.UnsubscribeOne | simconnect_native/subscribe.py:349-372 | drops the entry; on an open session ends its request, clears its definition and releases its id |
| SimConnect.SimConnect.Unsubscribe | simconnect_native/subscribe.py:341-372 | a composite goes with all its children |
| SimConnect.SimConnect.ResubscribeOne | simconnect_native/subscribe.py:134-187 | ends the request, clears the definition, then applies the subscription again |
| SimConnect.SimConnect.Resubscribe | simconnect_native/subscribe.py:121-187 | a composite is recovered child by child, whichever of them fail, and the result says whether all of them succeeded |
| SimConnect.SimConnect.RepollTypeSubscription | simconnect_native/subscribe.py:541-557 | repeats the TYPE request of a defined subscription on a ready session |
| SimConnect.SimConnect.DefineVar | simconnect_native/sync_io.py:71-73 | finds or makes the slot, clears it if defined, defines it |
| SimConnect.SimConnect.Ask | simconnect_native/sync_io.py:76-95 | the entry waits exactly when the TYPE request was accepted |
| SimConnect.SimConnect.BeginGet | simconnect_native/sync_io.py:55-113 | get up to its wait: nothing changes before OPEN, nothing waits after a failure |
| SimConnect.SimConnect.BeginGetMany | simconnect_native/sync_io.py:154-227 | get_many up to its wait: a new id, its fields, its entry; the definition goes when the request fails |
| SimConnect.SimConnect.EndGet | simconnect_native/sync_io.py:219-227 | answered or not, the entry goes and its value is handed out, and a get_many clears its definition |
| SimConnect.SimConnect.SetVarDirect | simconnect_native/write_queue.py:305-326 | defines the variable and then writes the packed bytes through its definition, unless it could not be defined |
| SimConnect.SimConnect.Set | simconnect_native/sync_io.py:229-258 | without the queue: nothing on a closed client or for a value that cannot be packed, otherwise the write of the packed value |
| SimConnect.SimConnect.SetString | simconnect_native/sync_io.py:260-285 | the same for a text, without a unit |
| SimConnect.SimConnect.Open | simconnect_native/client.py:378-390 | a failed call or a null handle changes nothing; otherwise the new session has no definitions and is not ready |
| SimConnect.SimConnect.OnOpen | simconnect_native/client.py:623-629 | the OPEN message makes the session ready, resets the flags (twice, which is once) and restores |
| SimConnect.SimConnect.OnQuit | simconnect_native/client.py:630-636 | QUIT drops the handle and leaves every flag as it is |
| SimConnect.SimConnect.Close | simconnect_native/client.py:519-554 | drops the handle; only if there was one and the DLL is not hung, makes one clear call for each defined id, with the HRESULTs these take, and resets the flags |
| SimConnect.SimConnect.LookupSubscription | simconnect_native/subscribe.py:416-426 | a reply finds the subscription of its id or of its offset id |
| SimConnect.SimConnect.DispatchSubscriptions | simconnect_native/subscribe.py:561-628 | the callback call a data message leads to, if any |
| SimConnect.SimConnect.LookupWaiting | simconnect_native/sync_io.py:327-332 | a reply finds the waiting entry of its id or of its offset id |
| SimConnect.SimConnect.DispatchSyncResponses | simconnect_native/sync_io.py:302-363 | a reply fills the waiting entry and nothing else |
| SimConnect.ReadFields | simconnect_native/subscribe.py:588-603 | the reading loop gives every key its value or nothing at all |
| Tables.ApplyAtSame | simconnect_native/subscribe.py:428-468 | applying a subscription changes, of all tables, only flags, its own definition and its own requests, whatever the DLL answers |
| Tables.RestoreKeeps | simconnect_native/subscribe.py:519-537 | a restore keeps the tables consistent, whatever the DLL answers |
| Session.StepKeeps | simconnect_native/client.py:616-666 | every API call and every handler keeps the tables consistent |
| Session.TablesOverRuns | simconnect_native/client.py:616-666 | so they are consistent in every run, with any HRESULTs and any keys |
| Session.RepliesReachTheirIssuer | simconnect_native/registry.py:44-97 | in every run within the id ranges, the reply to an open request finds the subscription and the get of the id it was issued for and no other; when it finds both they have the same variable, unit and datatype |
| Subscribed.SubscribeForLife | simconnect_native/subscribe.py:211-238 | at the end of any run, with any HRESULTs and any keys: negative arguments change nothing; any other call enters exactly one subscription, to the name, unit and datatype the caller wrote and with the caller's period, raised or not; with HRESULT 0 or before OPEN it does not raise; the subscription lives exactly until it is unsubscribed, and all the while its definition is copies of that variable alone |
| Subscribed.SubscribeManyForLife | simconnect_native/subscribe.py:308-337 | the same for a list of numeric fields: one packed subscription to exactly the caller's list, entry i of its fields having the i-th name, unit and datatype, under the caller's keys |
| Subscribed.PackedDefinitionIsTheList | simconnect_native/subscribe.py:444-468 | in every run with HRESULT 0 and distinct live keys, its definition is whole copies of the caller's list, at least one on a ready session |
| Subscribed.SubscribeManySplits | simconnect_native/subscribe.py:259-306 | a list with strings becomes a composite: one packed child for the other fields, if there are any, and one child for each string, all as the caller wrote them and in the caller's order; with HRESULT 0 or before OPEN it does not fail; when a call fails no composite is entered and the children entered by then, one at least, stay; no other entry changes |
| Subscribed.SubscribeManyRefuses | simconnect_native/fields.py:62-78 | a negative period or a datatype outside 1 to 11 is refused, and nothing changes |
| Entries.EntryLasts | simconnect_native/subscribe.py:341-372 | in every run an entry lives exactly until an unsubscribe of itself or of its composite, and but for the TYPE mark it never changes |
| Unsubscribed.UnsubscribeEndsForGood | simconnect_native/subscribe.py:341-372 | at the end of any run, with any HRESULTs and any keys: unsubscribe takes exactly the entry of the subscription, or those of all children of a composite and the composite; nothing of any other id changes but that the keys the ended ids lead to go; with HRESULT 0 on an open session their definitions and data requests are gone and they lead to no slot; no later run brings them back, and no packet under either of their request ids ever calls a callback again |
| Unsubscribed.UnsubscribeStrandsTheOther | simconnect_native/registry.py:105-108 | what the keys cost: of two subscriptions to one variable, unsubscribing the first unregisters the slot of the second, which after QUIT and a reconnect never gets a definition again |
| Sessions.SessionFollowsItsEvents | simconnect_native/client.py:616-666 | in every run, whatever the DLL answers, a session exists exactly from an open to the next quit or close, and is ready exactly once its OPEN message has arrived |
| Sessions.CloseEndsTheSession | simconnect_native/client.py:519-554 | at the end of any run a close leaves no session, no definition, no request and every entry as it was; a regular close of an open session makes one clear call for each registered variable that is marked as defined and leaves none marked; on a hung DLL flags stay and no definition is cleared; until the next open no DLL function is called at all |
| Sessions.QuitAndOpenEndTheSession | simconnect_native/client.py:630-636 | QUIT and a new open do the same and leave every flag as it is |
| Effects.EndOfGet | simconnect_native/sync_io.py:219-227 | at the end of any run the end of a get takes its entry and no other, that of a get_many on an open session also clears its definition, and nothing else changes |
| Effects.GetManyLeavesNothing | simconnect_native/sync_io.py:154-227 | at the end of any run a get_many that is over, refused, failed, answered or not, has changed nothing but to draw an id: nothing waits, the registry and every other definition are what they were, and with HRESULT 0 its own is empty |
| Effects.RepollAsksAgain | simconnect_native/subscribe.py:541-557 | at the end of any run, on a ready session, for a live subscription whose slot is marked, exactly one call repeats the TYPE request, for the subscription's own definition, and the mark tells whether it was accepted; in every other case nothing is asked |
| Effects.RecoverReachesAllChildren | simconnect_native/subscribe.py:121-132 | with HRESULT 0 on an open session, recovering a composite leaves exactly one copy of the fields of each of its children, displaced single ones apart, changes no other definition, and reports success exactly if all children are live |
| Applied.ApplicationAddsExactly | simconnect_native/subscribe.py:428-468 | on an open session, with any HRESULTs and any keys, an application without a failed checked call leaves what its clear call left, plus its field list once, or plus nothing if a second subscription to its variable displaced its slot while it was marked as defined |
| Applied.ApplicationSucceeds | simconnect_native/subscribe.py:428-468 | with HRESULT 0 on an open session every application is without a failed call |
| Applied.ApplicationMarks | simconnect_native/subscribe.py:428-468 | one without a failed checked call leaves the slot marked as defined, on which repeating its TYPE request depends, and the TYPE mark set; a failed one never sets that mark |
| Recovery.RecoveryDefinesAllButStranded | simconnect_native/subscribe.py:121-187 | with HRESULT 0 and any keys, recovering one subscription returns True and leaves exactly one copy of its field list, and nothing if a second subscription to its variable displaced its slot while it was marked as defined |
| Recovery.RecoveryLeavesExactly | simconnect_native/subscribe.py:134-187 | with any HRESULTs and any keys, a recovery that returns True leaves what its clear calls left, plus one copy unless the slot was displaced: exactly one copy if and only if the clear calls, whose HRESULTs are ignored, left nothing (for a displaced slot: left exactly that copy) |
| Recovery.RecoveryLosesTheFirst | simconnect_native/subscribe.py:134-187 | a run of the exception: of two subscriptions to one variable on a ready session, recovering the first returns True and takes its definition away |
| MirrorRuns.DefineVarAgrees | simconnect_native/sync_io.py:71-73 | a get or a set on the variable of a live subscription keeps the subscription's definition whole |
| MirrorRuns.StepAgrees | simconnect_native/client.py:616-666 | every step keeps the agreement of the two tables while live keys stay distinct |
| MirrorRuns.MirrorInvariant | simconnect_native/subscribe.py:121-187 | in every run with HRESULT 0 and distinct live keys, the remote definition of each live subscription is its field list repeated k times, with k >= 1 when the session is ready |
| Actions.StepIsItsActions | simconnect_native/client.py:616-666 | every call and handler is a sequence of elementary actions of the tables and the DLL, each of them proper where it happens |
| Actions.RunIsItsActions | simconnect_native/client.py:616-666 | so every legal run is a sequence of them |
| Meaning.DoMeans | simconnect_native/registry.py:44-97 | every action, whatever the DLL answers, keeps what drawn ids stand for, and keeps the definition of an id that stands for one variable whole copies of it |
| Meaning.VariablesAreDefinedWhole | simconnect_native/sync_io.py:71-73 | in every run, with any HRESULTs and any keys, the remote definition of every registered variable, gets and sets included, is whole copies of the variable |
| Meaning.SinglesAreDefinedWhole | simconnect_native/subscribe.py:428-442 | so is the definition of every live single subscription, displaced ones included |
| RequestsOpen.ApplyAtAsks | simconnect_native/subscribe.py:428-468 | applying a subscription leaves its own requests open and ends nobody else's |
| RequestsOpen.LiveSubscriptionsAreRequested | simconnect_native/client.py:623-629 | in every run with HRESULT 0, with any keys, no data request is open for anything but a live subscription whose period is not NEVER, and on a ready session each of these has one, and every live subscription its TYPE request, all for their own definitions |
| RestoreExact.RestoreIsolatesEntries | simconnect_native/subscribe.py:519-537 | with any HRESULTs and any keys, each entry of a restore finds its definition untouched by the others and keeps what its own calls make of it: if they succeed, its field list once more (nothing more for a displaced, marked slot) behind what was there, and behind nothing only if an earlier entry owns the slot its id looks up |
| RestoreExact.RestoreAddsOneCopy | simconnect_native/subscribe.py:519-537 | a restore whose calls succeed adds exactly one copy to every live subscription whose slot is not displaced and marked, and nothing to those: on the same session definitions grow |
| RestoreRuns.RestoresInOrderAdd | simconnect_native/subscribe.py:519-537 | at the end of every run, with any HRESULTs and any keys, a restore that walks the table in its own order, ids ascending, meets no such earlier entry: each entry whose calls succeed gets one copy more, or nothing more if displaced and marked |
| RestoreRuns.RestoreAddsNothingToTheFirst | simconnect_native/subscribe.py:519-537 | a run of the exception: of two subscriptions to one variable on a ready session, a restore adds nothing to the first |
| RestoreExact.OpenDefinesAllButStranded | simconnect_native/client.py:623-629 | with any keys, OPEN on a session without definitions leaves exactly one copy of a subscription if and only if it is not displaced and still marked as defined; those get an empty definition |
| RestoreExact.WiredStrandsNobody | simconnect_native/registry.py:55-75 | with distinct live keys nobody is displaced, so everyone gets exactly one copy |
| RestoreExact.WiredIsUnclaimed | simconnect_native/registry.py:55-75 | and in whatever order the entries come, no earlier one owns the slot of a later one |
| MirrorLimits.SecondSubscriptionStrandsTheFirst | simconnect_native/registry.py:55-75 | two subscriptions to one variable on a ready session displace the first and leave it marked as defined |
| MirrorLimits.DuplicateKeyLosesTheFirst | simconnect_native/subscribe.py:374-383 | after QUIT and a reconnect the first of them never gets a definition again |
| HalfWay.ApplicationKeepsWholeExactly | simconnect_native/subscribe.py:444-468 | with any HRESULTs, applying a packed subscription whose definition is whole copies leaves whole copies if and only if the number of leading zero HRESULTs of its AddToDataDefinition calls is none of its fields or all of them |
| HalfWay.DoKeepsWholeExactly | simconnect_native/subscribe.py:444-468 | no other action ever breaks a packed definition: an action keeps all of them whole if and only if it is not an application that stops half-way |
| HalfWay.DefinitionsAreWholeExactly | simconnect_native/subscribe.py:444-468 | in every run, with any HRESULTs and any keys, every live packed definition is whole copies at every moment if and only if no application stops half-way |
| HalfWay.FailedAddMisalignsTheDefinition | simconnect_native/subscribe.py:444-468 | a run that stops half-way: a subscribe_many of f and g whose second AddToDataDefinition fails, restored on the same session, has the definition f, f, g |
| HalfWay.MisalignedCallback | simconnect_native/subscribe.py:588-606 | what that costs: its callback gets the second value of f under the key of g |
| Delivery.RepeatStarts | simconnect_native/subscribe.py:581-604 | however many copies a definition holds, the field list comes first |
| Delivery.FirstValuesHold | simconnect_native/subscribe.py:581-604 | the layout of a packed subscription finds the first values of any definition whose datatypes begin like its fields, one by one |
| Delivery.DeliversByPosition | simconnect_native/subscribe.py:581-606 | so the callback of a packed subscription gets the value packed i-th under its i-th key, whatever that value was packed for |
| Delivery.ReadSlicesReads | simconnect_native/subscribe.py:588-603 | the read gives exactly the keys with their values if every value is accepted, otherwise nothing |
| Delivery.DeliversMany | simconnect_native/subscribe.py:561-606 | a packed subscription's callback gets exactly its keys with the packed values, or is not called |
| Delivery.DeliversOne | simconnect_native/subscribe.py:607-626 | a single subscription's callback gets its value, or is not called |
| InFlight.LettersReachTheirSubscription | simconnect_native/subscribe.py:416-426 | in every run, with any HRESULTs and any keys, a message is handed, whenever it arrives, to the subscription its request was made for or to nobody; one for a single subscription was packed from its own variable, whose value it gets, or is empty; a packed one is called with exactly its keys or not at all, and with the values of its own fields if the message was packed from these first |
| InFlight.WholeLettersAreDelivered | simconnect_native/subscribe.py:561-628 | end to end, with any HRESULTs and any keys: in every run in which no application stops half-way, every non-empty message was packed from the own fields of its subscription first and is delivered to it with exactly the values packed for them, or to nobody if it is gone |
| InFlight.OnlyEmptyLettersMislead | simconnect_native/subscribe.py:581-606 | in the same runs, whatever memory follows a message and whatever counts as plausible, it leads to no call or to its own values, if and only if it is not an empty message for a packed subscription |
| Delivery.EmptyMessageReadsMemory | simconnect_native/subscribe.py:581-606 | on that one the callback gets whatever values stand in the memory behind the header |
| EmptyLetters.AnEmptyLetterArises | simconnect_native/subscribe.py:134-187 | a run of the exception: a recovery on a ready session clears the definition and fails to define it, its TYPE request stays open and is answered with an empty message |
| InFlight.MessagesDeliverWhatWasPacked | simconnect_native/subscribe.py:561-628 | end to end on ready sessions with HRESULT 0 and distinct live keys: every message for an open request was packed from the own fields of its subscription first, so it is not empty unless these are, and is later delivered, after any further steps, to it with exactly its keys and the values packed for them, or to nobody if it is gone (text as long as it is a C string the decoder reads back reliably) |
| SyncRoundTrip.GetManyDefinesAndWaits | simconnect_native/sync_io.py:154-204 | at the end of any run, with any HRESULTs and any keys, a get_many that does not raise has a definition whose i-th entry has exactly the i-th name, unit and datatype of the caller's list, under a new id, has asked for it and waits |
| SyncRoundTrip.GetDefinesAndWaits | simconnect_native/sync_io.py:55-95 | at the end of any run, a get that does not raise has left one or more copies of one field in the definition, whose name is the caller's up to outer white space and ASCII case, whose unit is the caller's up to outer white space (none for a string) and whose datatype is the caller's, has asked for it and waits |
| SyncRoundTrip.GetWaitsExactly | simconnect_native/sync_io.py:35-95 | a get comes to wait only on a ready session, and with HRESULT 0 always does; refused it changes nothing, and failed it leaves nothing waiting |
| SyncRoundTrip.GetManyWaitsExactly | simconnect_native/sync_io.py:130-204 | and so does a get_many, for lists of the datatypes 1 to 4 |
| SyncRoundTrip.SetWritesItsValue | simconnect_native/write_queue.py:305-326 | at the end of any run, with any HRESULTs and any keys, a set writes through a definition that is copies of the variable the caller named, in the same sense, and its bytes read back as the value, whatever follows; it writes only on an open session for the datatypes 1 to 4, with HRESULT 0 then always, and otherwise changes nothing |
| SyncRoundTrip.SetStringWritesItsText | simconnect_native/write_queue.py:293-297 | and so does set_string: its bytes read back as the text if and only if that has at most 4095 bytes and no NUL |
| Mail.GetsHandOutWhatWasPackedForThem | simconnect_native/sync_io.py:302-363 | in every run, whatever happens between a get and its end (restores, sets, subscriptions to the same variable, late replies to earlier gets under the same id), the value in a waiting get was packed under its id for that variable, and the dictionary in a waiting get_many is the values packed under its id for exactly the fields, names and units included, the id was drawn for |
| Mail.GetManyHandsOutItsFields | simconnect_native/sync_io.py:154-227 | from the call to its end, with any events in between: what get_many(fields) hands out is the values of a reply packed from exactly the fields the caller wrote, entry by entry, each under the caller's key |
| Mail.GetHandsOutItsVariable | simconnect_native/sync_io.py:55-113 | from the call to its end, with any events in between: what get(name, unit) hands out is the first value of a reply packed from copies of one field, which names the variable the caller asked for, with its unit and datatype |
| Mail.ArrivalAnswers | simconnect_native/sync_io.py:334-363 | in every such run a reply for a waiting entry fills it: a get with the first value packed, a get_many with all of them |
| WriteQueue.WriteFuture.SetResult | simconnect_native/write_queue.py:62-64 | a success sets the future and leaves its error alone |
| WriteQueue.WriteFuture.SetError | simconnect_native/write_queue.py:66-68 | a failure sets the future and its error |
| WriteQueue.WriteQueueMixin.EnqueueWrite | simconnect_native/write_queue.py:197-229 | raises on a closed client; appends to the queue or runs at once, and returns a fresh future |
| WriteQueue.WriteQueueMixin.Append | simconnect_native/write_queue.py:217-221 | the operation goes to the end and is counted |
| WriteQueue.WriteQueueMixin.ExecuteWriteOp | simconnect_native/write_queue.py:231-247 | the future is settled with the outcome of the operation, which is uncounted if it was queued |
| WriteQueue.WriteQueueMixin.DrainWriteQueue | simconnect_native/write_queue.py:249-259 | settles the first 256 or fewer operations in order and leaves the others untouched |
| WriteQueue.WriteQueueMixin.CancelWriteQueue | simconnect_native/write_queue.py:261-270 | empties the queue and the counter and settles exactly the unsettled futures with an error |
| WriteQueue.DrainTakesPrefix | simconnect_native/write_queue.py:249-259 | a drain removes a prefix of the queue and keeps the counter exact |
| WriteQueue.DrainsCompose | simconnect_native/write_queue.py:249-259 | drains of m and of n operations are one drain of m + n |
| PumpTheorems.SinglePump | simconnect_native/client.py:725-757 | in every run with one serialised controller at most one dispatch loop is alive |
| PumpTheorems.StartAlwaysStarts | simconnect_native/client.py:725-757 | in every such run a start past its guard that finds the flag down finds neither a live thread nor a known hang, and starts exactly one pump |
| PumpEvents.FlagsFollowEvents | simconnect_native/client.py:725-833 | in every run native_hung is set exactly by a stop that timed out or an open that did not return, and stays set; the client is open exactly from an open that succeeded, a reconnecting pump's included, to the next quit or close; the pump flag is up, and the stop event down, exactly from a start to the next stop |
| PumpEvents.RestartStarts | simconnect_native/client.py:711-723 | a restart whose stop has ended the old pump, on a client that is not known to hang, starts a new one |
| PumpEvents.StopEndsReconnecting | simconnect_native/client.py:808-818 | from a stop to the next start no pump comes to SimConnect_Open that was not past its wait already |
| PumpEvents.RaiseEndsAStoppedPump | simconnect_native/client.py:789-796 | a pump whose CallDispatch raises ends there if a stop was called and otherwise begins its next round |
| PumpEvents.StatementEndsExactly | simconnect_native/client.py:786-833 | a pump leaves its loop exactly with the flag down and the counter at zero at either end of a round, on a known hang before either try to reconnect, and after a stop in the wait of a reconnect or behind a raised exception |
| PumpEvents.PollingGoesOn | simconnect_native/client.py:512-517 | a pump that waits for the OPEN message of the session it has just opened polls again while it has polls left, through the guard of dispatch(), and then goes back to its loop |
| PumpEvents.BatchIsExact | simconnect_native/write_queue.py:249-259 | in every run a pump executes at most 256 operations between two dispatches, and it ends a batch exactly when it has executed 256 or the queue is empty |
| PumpTheorems.QueueAccounting | simconnect_native/write_queue.py:197-270 | in every interleaving pending plus one bit equals queued + in flight; the bit, one uncounted operation, is set only on a client whose DLL is known to hang |
| PumpTheorems.CounterIsExact | simconnect_native/write_queue.py:197-270 | in every run in which no cancel meets an operation between its pop and its decrement, pending is exactly queued + in flight |
| PumpTheorems.ExactlyOnce | simconnect_native/write_queue.py:231-270 | every operation is with its writer, queued, executing or settled, in exactly one of the four, and no future is set twice |
| PumpTheorems.FirstInFirstOut | simconnect_native/write_queue.py:249-259 | the k-th operation to leave the queue is the k-th that was appended |
| PumpTheorems.FlushIsExact | simconnect_native/write_queue.py:182-195 | when flush sees the counter at zero, nothing is queued or in flight if and only if that bit is down, which it is whenever native_hung is False; every operation appended has its answer if and only if it is down or the pump is about to count down |
| PumpTheorems.FlushWhenShort | simconnect_native/write_queue.py:261-270 | a run in which the bit is up: flush returns True while a write is unsettled |
| PumpHung.HungIsContained | simconnect_native/client.py:177-190 | in every run, once the hang is known it stays known, no SimConnect_Close is issued and no pump is started; the threads past the guard of dispatch() or open() and the calls issued since add up to a constant, so nobody passes a guard and each thread past one makes at most that call; call_dispatch has no guard |
| PumpHung.DispatchAfterTheHang | simconnect_native/client.py:598-609 | such a late call happens: a stop times out while the pump is between its guard and CallDispatch, which it then enters |
| PumpTheorems.RaisedFlagHasAPump | simconnect_native/client.py:786-833 | in every run, proper opens or not, there is a live pump behind a raised flag if and only if the thread started last did not leave its loop through the reconnect break, and it leaves that way only once native_hung is True |
| PumpTheorems.NoWriteToADeadPump | simconnect_native/client.py:786-833 | while every open() is proper, a raised running flag without a live pump means hung and closed; so a writer that passes the running test finds a live pump whenever native_hung is False or the client is open |
| PumpStray.WriteToAHungClient | simconnect_native/write_queue.py:205-221 | otherwise it may not: a writer passes the open test, the simulator quits and the reconnect hangs, and the writer then passes the running test and appends to a dead pump, in a run of proper opens |
| PumpTheorems.ProperOpenIsExact | simconnect_native/client.py:343-403 | an open() that is not proper - pump flag up, automatic reconnection on, not hung - can always end with a dead pump behind a raised flag on an open client |
| PumpDrain.RegularExitIsDrained | simconnect_native/client.py:806-807 | a pump that leaves its loop the regular way leaves the flag down and the counter at zero; every appended operation is settled then if and only if the counter is not short, which it never is while native_hung is False |
| PumpDrain.DrainTerminates | simconnect_native/client.py:786-833 | after a stop, in any interleaving and with the cancel of a close, the statements the pump executes and the appends of writers past their check are bounded by a measure known at the stop, until a pump is started again |
| PumpDrain.CloseSettlesWhatWasQueued | simconnect_native/client.py:519-554 | when close() returns every operation appended before it is settled, except at most one in flight on a hung pump |
| PumpLate.LateWriteStaysQueued | simconnect_native/write_queue.py:217-221 | a write whose writer passed its check before close() and appends it afterwards, with no live pump, stays queued and unanswered until a pump is started or the queue cancelled again |
| PumpLate.WriteAfterClose | simconnect_native/write_queue.py:197-221 | a run in which that happens |
| PumpLate.NextSessionRunsIt | simconnect_native/write_queue.py:249-259 | and its continuation: the pump of the next session executes the write |
| Debounce.RestoreTimer.CancelRestoreTimer | simconnect_native/subscribe.py:472-480 | no timer is pending afterwards |
| Debounce.RestoreTimer.ScheduleRestoreSubscriptions | simconnect_native/subscribe.py:482-502 | replaces whatever timer there was by one due in two seconds |
| Debounce.RestoreTimer.RunScheduledRestore | simconnect_native/subscribe.py:504-517 | forgets the timer and restores exactly on an open handle not restored by OPEN in the last 8 s |
| Debounce.DeadlineFollowsTheLastTrigger | simconnect_native/subscribe.py:482-502 | in every run at most one timer is pending, exactly while the last trigger is unanswered, due two seconds after it |
| Debounce.TimingFollowsTheSession | simconnect_native/client.py:616-666 | what the timer looks at is the session: open from an open to the next quit or close, with its OPEN message once that has arrived |
| Debounce.TwoFiringsNeedAGap | simconnect_native/subscribe.py:482-502 | two firings are separated by consecutive triggers at least two seconds apart, so a denser burst leads to one at most |
| Debounce.FiringsAreCovered | simconnect_native/subscribe.py:504-517 | whenever the timer fires on an open handle a full restore runs then or ran less than 8 s before |
| Debounce.FiringSkipsExactly | simconnect_native/subscribe.py:504-517 | in every run a firing on an open handle leaves the session without any full restore since it was opened if and only if its OPEN message has not arrived and the OPEN of an earlier session is less than 8 s old |
| Debounce.RestoresHappenExactly | simconnect_native/subscribe.py:504-517 | a full restore runs when OPEN arrives, when restart_dispatch asks for it, and when the timer fires on an open handle that no OPEN restored in the last 8 s, and at no other step |
| Debounce.CoverMayBeOfAnOlderSession | simconnect_native/subscribe.py:511-515 | a run in which that happens |
| Debounce.TimerOutlivesClose | simconnect_native/client.py:519-524 | a run in which a trigger handled while close() waits for the pump arms a timer that is still pending after it |
| Watchdog.IsolatedSimConnect.ReadLoopTurn | simconnect_native/isolated.py:255-282 | what each event does to the ready, hung and heartbeat fields |
| Watchdog.IsolatedSimConnect.WatchdogTurn | simconnect_native/isolated.py:284-294 | kills exactly an armed worker silent for longer than the timeout, and otherwise goes on exactly if the process exists |
| Watchdog.HangIsReportedExactly | simconnect_native/isolated.py:255-282 | in every run, once the parent was given a "hung", a "zombie" or a heartbeat that reports a hang, native_hung holds at every later moment; as long as the worker's process exists it holds exactly if one was given; and the parent is ready exactly if it was given a "ready", a "hung" or a "zombie" |
| Watchdog.SilenceSeenIsBounded | simconnect_native/isolated.py:40-57 | the silence the parent sees from a live ready worker stays below 0.6 s + longest command + delivery time |
| Watchdog.NoLiveWorkerIsKilled | simconnect_native/isolated.py:284-294 | with a timeout of at least that no live worker that reported no hang is killed |
| Watchdog.SilentWorkerIsKilled | simconnect_native/isolated.py:284-294 | while its process exists, an armed worker has been heard from within the timeout and one watchdog period, or was armed less than a period ago; once it is gone, killed or exited, an armed parent reports a hang |
| Watchdog.ExitedIsNeverKilled | simconnect_native/isolated.py:142-143 | a worker that exited by itself is not killed any more once the watchdog saw it, and an armed parent reports a hang all the same |

## Left out

- DLL discovery and loading, ctypes signatures, HRESULT names, logging: foreign calls and text; an HRESULT is zero or not.
- SimConnect_Open scanning over config indices, `connect` and `connect_hard`: one loop around open and close.
- Health timestamps, the recovery sweep and its thresholds, `is_dataflow_healthy`, reconnect backoff: each is a comparison with a clock; recovering and repolling themselves are steps that may happen at any time. For a TYPE reply the code touches the health entry of the offset id, so nothing is claimed about health.
- Mapped client events, triggers and system-event hooks: plumbing.
- Registry.Registry.ResetDefinedFlags: does not clear the set of mapped client events, which the model has no part of.
- SimConnect.SimConnect.SubscribeMany: does not model the dictionary a composite merges its children's updates into, one update under a lock. Its children are treated as plain subscriptions, which the table invariant proves they are.
- SimConnect.SimConnect.RepollTypeSubscription: repeats the request of one subscription; when the loop comes to it, at most every 0.2 s, is a comparison with a clock.
- SimConnect.SimConnect.DispatchSubscriptions: does not model the health timestamps a delivery touches, nor what becomes of an exception the callback raises.
- User callbacks, including callbacks that call the API again, and exceptions they raise.
- A thread-level race between the timer's restore and the pump's handlers: the code does not lock the two against each other, and the model takes each pass as one step.
- Several controllers racing start, stop, close and open: the code does not serialise them; the model has one.
- Timer threads between waking up and running: a cancelled timer never fires in the model, which lets it fire as late as it likes otherwise.
- UTF-8 decoding, IEEE arithmetic, reads past the end of a message: text stays bytes, floats stay bit patterns, memory continues with zeros.
- Upper-casing and stripping of variable names beyond ASCII.
- The thread of a timed SimConnect_Open that is not scheduled before its timeout: the call counts as issued when the thread is started.
- The waits of get, get_many and flush, and their timeouts: a get is its begin, the replies in between and its end.
- The parent killing a worker for other reasons than a missed heartbeat (`connect` timing out, `shutdown`), and the commands themselves: a command is the time it takes.
- Command line, asyncio wrapper, web example, catalogue scripts, data files.
