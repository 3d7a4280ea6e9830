# A verified model of the SKF service

The SKF service is a JSON-RPC gateway between web pages and USB crypto tokens. This
project models the parts of it whose correctness is not visible from any one function,
and proves what they are for:

* **Native guards** (`NativeGuards`, `NativeGuardProofs`, `NativeGuardTheorems`,
  `NativeGuardQuiescence`, `NativeGuardCalls`): devices,
  applications, containers and digests as reference-counted guards whose `Drop` calls the
  vendor library, with one non-reentrant gate, as a transition system over arbitrary
  threads, vendor failures and drop orders.
* **Connections and sessions** (`Lifecycle`, `LifecycleProofs`, `LifecycleTheorems`,
  `LifecycleRequests`):
  permits, the session registry, the state that travels onto a blocking task, timeouts,
  panics and aborts, as a second transition system.
* **Authorization** (`Auth`, `CertKey`, `Handlers`, `HandlerCalls`, `Connection`,
  `RequestTargets`): the deadline table, the twelve domain handlers with their early
  returns, whole connections, and which names open what.
* **Handles** (`Handles`, `HandleBranches`, `HandleSessions`): the typed handle table, the
  request branches that use it, and whole sessions of them.
* **Requests in DER** (`Bytes`, `Text`, `Der`, `Subject`, `Csr`, `Base64`, `Pem`,
  `CreateRequest`): the encoder of PKCS#10 requests against a strict reader written for
  this project (sections 8.1.3, 8.3 and 10.1 of ITU-T X.690, section 4 of RFC 2986,
  section 9.2 of RFC 8017, section 2 of RFC 7468, section 4 of RFC 4648).
* **The rotating log and the `%VAR%` expander** (`RotatingLog`, `EnvExpand`).

`Options`, `Resources` and `Collections` hold what several of them share, and `KnownAnswers`
holds texts and bytes written out in full. `dafny verify dfyconfig.toml` checks everything.

How the model reads the program:

* The vendor is an oracle that answers each call with success or failure; clock readings,
  randomness and the environment are parameters. Within a session the clock does not go
  back, and session ids are distinct.
* Text is a sequence of bytes. Integers are unbounded except where the width matters:
  `EncodeLength` drops high bits as the casts do.
* Concurrent parts are transition systems in which any enabled step may come next, so
  "reachable" ranges over every interleaving. Classes with fields that methods update
  (`AuthTable`, `HandleTable`, `RotatingFileLogger`, the per-request `Provider`) are
  classes here, and their loops are loops.

Where the program does not do what its comments or a reader might expect, the exact
condition is proved:

* A DER length is right exactly up to 65535 (`Der.LengthRoundTrip`), so a request decodes
  exactly when it fits (`Csr.CsrRoundTrip`).
* `der_small_integer` writes a negative number from 128 on (`Der.SmallIntegerIsCanonical`);
  its only caller passes 0 (src/domain/crypto.rs:775).
* `SignData` and `CreatePKCS10` encode the same token signature alike exactly when it is
  right-aligned (`Csr.SignaturesAgree`).
* The payload limit is 262146 bytes, two more than the constant says (`Base64.PayloadGuard`).
* A logger that keeps zero files leaves a stray `.1` (`RotatingLog.RotationBoundsFiles`).
* `CreatePKCS10` keeps the grants of a device whose application does not open, unlike
  every other handler: a gated request after it succeeds if and only if the request in
  between was a `CreatePKCS10` (`Connection.OnlyCreatePkcs10Keeps`, and
  `Connection.SampleRunSigns` at one input).
* Each `DigestInit` leaves a device in the table that ending the digest does not take back.
  A client that ends every handle it was told, and disconnects no other, leaves the table
  empty if and only if it started no digest (`HandleSessions.TidyClientLeaves`, and
  `HandleSessions.OneDigestLeavesADevice` at the shortest input).

## Model

| member | source | states |
|---|---|---|
| `NativeGuardProofs.KeepsInv` | src/provider/native.rs:98-140 | every step of every thread keeps the invariant: lock discipline, borrows, counts equal to owner plus live children, and a vendor trace the open-handle ledger accepts |
| `NativeGuardTheorems.MutualExclusion` | src/provider/native.rs:98-117 | in every reachable state at most one gated vendor call is in progress and its thread holds the gate |
| `NativeGuardTheorems.NeverReenters` | src/provider/native.rs:133-140 | no thread asks for the gate while holding it, drop cascades included |
| `NativeGuardTheorems.RunsUnlessBlocked` | src/provider/native.rs:98-117 | a busy thread can take its next step if and only if it is not waiting for the gate or for a device event |
| `NativeGuardTheorems.GateIsHandedOver` | src/provider/native.rs:110-117 | a thread waiting for the gate waits for another thread that frees it within two of its own steps |
| `NativeGuardTheorems.CancelWakesWait` | src/provider/native.rs:850-879 | cancel reaches a parked wait in three steps whoever holds the gate, changing no guard |
| `NativeGuardTheorems.LedgerMeaning` | src/provider/native.rs:263-314 | the ledger's open set is exactly the handles opened and not yet closed in the trace |
| `NativeGuardTheorems.AcceptedIsSafe` | src/provider/native.rs:447-465 | whatever the ledger accepts closes each handle at most once, uses none after closing and closes children before parents |
| `NativeGuardTheorems.VendorTraceIsSafe` | src/provider/native.rs:331-345 | the vendor trace of every reachable state is safe in that sense, for every order of opening and dropping |
| `NativeGuardTheorems.DisconnectedLast` | src/provider/native.rs:123-140 | a device is disconnected only after its applications, and each of them after its containers |
| `NativeGuardTheorems.DropDefersToChildren` | src/session/handles.rs:94-100 | dropping a box closes its handle at once if and only if no child is left; otherwise no vendor call is made, so a devices-first table drop is harmless |
| `NativeGuardTheorems.EverythingReleased` | src/provider/native.rs:696-710 | once all boxes are dropped and threads idle, each opened handle was closed exactly once, by a vendor call if and only if it is not null |
| `NativeGuardQuiescence.CanAlwaysRelease` | src/provider/native.rs:98-140 | from every reachable state some run from it ends with all threads idle and all boxes dropped, each handle opened so far closed exactly once |
| `NativeGuardCalls.ConnectMakesDevice` | src/provider/native.rs:881-900 | a connect that succeeds adds exactly one live device under an unused id, owned by its thread, counted once, with the vendor's handle, and one open event; one that fails adds nothing |
| `NativeGuardCalls.OpenMakesChild` | src/provider/native.rs:263-314 | opening a child uses the parent's live handle and on success adds one live guard and one reference to the parent |
| `NativeGuardCalls.CallUsesHandle` | src/provider/native.rs:732-744 | any other call uses the live handle it is made on and changes no guard |
| `NativeGuardCalls.ParentsFit` | src/provider/native.rs:331-336 | in every reachable state a guard's parent is of the right kind and live while the guard is there |
| `NativeGuardCalls.MoveHandsOver` | src/main.rs:239-242 | a box that moves with its session changes its holder and nothing else |
| `NativeGuardCalls.ConnectRuns` | src/provider/native.rs:881-900 | the whole method body, alone on the gate, ends with the device made and the gate free |
| `NativeGuardCalls.OpenRuns` | src/provider/native.rs:263-283 | the same for opening a child |
| `NativeGuardCalls.CallRuns` | src/provider/native.rs:732-744 | the same for any other call |
| `NativeGuardCalls.QueryRuns` | src/provider/native.rs:98-117 | a query takes the gate and leaves no trace |
| `NativeGuardCalls.WaitParksAndCancelEndsIt` | src/provider/native.rs:850-879 | a wait parks without the gate and a cancel from another thread ends it, whoever holds the gate |
| `NativeGuardCalls.OneOfEach` | src/provider/native.rs:263-314 | a run from the start after which one thread owns a device, an application, a container and a digest, with the exact vendor trace |
| `LifecycleProofs.KeepsInv` | src/main.rs:214-294 | every step keeps: one home per state, one owner per resource, stages and tasks paired, permits conserved, registry equal to live markers |
| `LifecycleTheorems.ExactlyOnePlace` | src/session/registry.rs:72-118 | every session state ever created is in exactly one place: one guard, one task, or dropped once |
| `LifecycleTheorems.ResourcesNotShared` | src/session/mod.rs:107-143 | no two places hold the same resource and none holds a released one |
| `LifecycleTheorems.TakeAlwaysFinds` | src/session/registry.rs:105-112 | `take_state` never finds the state taken, in any run |
| `LifecycleTheorems.PutNeverOverwrites` | src/session/registry.rs:114-117 | when a state is put back the slot is empty, so nothing is lost |
| `LifecycleTheorems.TimeOutStartsOver` | src/main.rs:244-269 | after a timeout the connection is ready with no grants, no handles and English under its old registration, while a running task keeps the old state untouched |
| `LifecycleTheorems.JoinRestoresOrStartsOver` | src/main.rs:272-292 | a finished task returns its state and language unchanged; after a panic the connection starts over and nothing is dropped a second time |
| `LifecycleTheorems.AbandonedNeverReturns` | src/main.rs:249-268 | in every continuation, a state left to an abandoned task never reaches any guard again |
| `LifecycleTheorems.SessionsWithinPermits` | src/session/registry.rs:31-60 | registry keys are exactly the markers of live guards even after replacements, pruning removes nothing, and sessions ≤ permits in use ≤ 64 |
| `LifecycleTheorems.AdmittedIffRoom` | src/server/mod.rs:471-491 | a connection is admitted if and only if fewer than 64 are open; a refused one changes nothing |
| `LifecycleTheorems.AllReleased` | src/session/registry.rs:120-124 | when all tasks have ended and all connections closed, every state and resource was released exactly once and all permits are back |
| `LifecycleTheorems.CanAlwaysDrain` | src/server/mod.rs:526-574 | from every reachable state some run of the server from that very state closes every connection, ends every task, hands nothing new out and releases exactly what was handed out |
| `LifecycleRequests.UpgradeStartsEmpty` | src/session/registry.rs:82-91 | an upgraded connection serves in English with an empty state, registered under that state's id |
| `LifecycleRequests.BeginTakesSession` | src/main.rs:221-242 | a request takes exactly the session's state and its language onto the task and empties the guard |
| `LifecycleRequests.TimedOutUnlessExempt` | src/main.rs:228-248 | a waiting request can time out if and only if it is not one of the wait methods |
| `LifecycleRequests.IdleRequestChangesNothing` | src/main.rs:215-279 | a request that does nothing leaves the whole server, language included, as it was |
| `LifecycleRequests.LanguageLasts` | src/main.rs:224-275 | a language set in a request is the connection's after it, and nothing else changed |
| `LifecycleRequests.GrantsLast` | src/main.rs:239-275 | so are the grants |
| `LifecycleRequests.IssuedStays` | src/main.rs:239-275 | a resource issued in a request is in the session's table after it |
| `LifecycleRequests.RemovedIsReleased` | src/main.rs:1466-1470 | a resource removed in a request is released then and gone from the table |
| `Auth.TableMeaning` | src/session/auth.rs:94-125 | an entry is the deadline of the last surviving grant, missing only if there is none or a check saw it expired |
| `Auth.CheckIsHistory` | src/session/auth.rs:104-117 | with a monotone clock the table that deletes on expiry gives the verdict the history defines |
| `Auth.AuthorizedIffGranted` | src/session/auth.rs:104-117 | a check succeeds if and only if some grant of that key, not cleared since, is younger than the lifetime |
| `Auth.InvalidationIsExact` | src/session/auth.rs:119-125 | losing a device takes the grants of that device of that provider, for every application, and no others |
| `Auth.GrantIsExact` | src/session/auth.rs:94-102 | a grant is good for its own key until its deadline and changes no other key |
| `Auth.AuthTable.Grant` | src/session/auth.rs:94-102 | the table follows the history extended by the grant |
| `Auth.AuthTable.Check` | src/session/auth.rs:104-117 | the verdict is the history's, and an expired entry is gone afterwards |
| `Auth.AuthTable.InvalidateDevice` | src/session/auth.rs:119-125 | exactly the grants of that provider and device go, and their number is reported |
| `CertKey.FormatRoundTrip` | src/main.rs:1621 | a printed key splits back into its five parts when the first four have no slash |
| `CertKey.PinKeyCoversExtensions` | src/domain/pin.rs:39-51 | `CheckPIN` on a three-part key derives the same authorization key as the signing handlers on every extension |
| `CertKey.SplitNExtend` | src/domain/mod.rs:197-208 | extending a key keeps all its parts but the last possible one |
| `CertKey.DefaultAliasIsOne` | src/domain/mod.rs:78-89 | empty alias, `default` and the default alias itself give one authorization key |
| `RequestTargets.TargetIsNamed` | src/domain/container.rs:35-48 | every method is about the provider, device and application it names, in that order, with the alias folded exactly by the methods that fold it |
| `RequestTargets.TargetWithoutAlias` | src/domain/keys.rs:32-37 | without an alias the default is meant, except by the key generators, which refuse |
| `RequestTargets.ShortKeysAreRefused` | src/domain/mod.rs:197-208 | a certificate key with too few parts is refused |
| `RequestTargets.SameNamesSameTarget` | src/domain/pin.rs:39-51 | a PIN and a request on the same three names are about the same application, for the methods that do not fold the alias if and only if it is its own normal form |
| `RequestTargets.PinOpensExactlyItsNames` | src/domain/mod.rs:91-99 | a gated request within the lifetime of a PIN succeeds if and only if it names that provider, device and application |
| `RequestTargets.WhatEndsALogin` | src/domain/mod.rs:101-112 | between PIN and use a login ends by a timeout, by age, by its device not connecting or its application not opening, and by no other handler |
| `Handlers.OpenChain` | src/domain/container.rs:50-87 | the opening moves succeed exactly on three good answers, leave device and application open, and otherwise clear exactly the grants the handler promises to clear |
| `Handlers.Enter` | src/domain/crypto.rs:66-107 | a gated handler gets past its check if and only if the device was reached and the history holds a live grant; nothing was touched otherwise |
| `Handlers.RanIsPrefix` | src/domain/crypto.rs:631-865 | what a request does before it stops is a prefix of what it does with a willing provider, and the whole of it when the provider is willing |
| `Handlers.HandleCheckPin` | src/domain/pin.rs:53-134 | a grant is recorded if and only if the PIN was verified |
| `Handlers.HandleCreateContainer` | src/domain/container.rs:50-110 | success if and only if authorized and created; only the promised effects on grants |
| `Handlers.HandleDeleteContainer` | src/domain/container.rs:144-196 | success depends on the provider alone: no gate |
| `Handlers.HandleGetContainerType` | src/domain/container.rs:226-306 | success depends on the provider alone: no gate |
| `Handlers.HandleImportCertificate` | src/domain/container.rs:356-426 | success if and only if authorized and every provider call succeeds |
| `Handlers.HandleGenKeyPair` | src/domain/keys.rs:52-132 | success if and only if authorized and the container generated the kind of key asked for |
| `Handlers.HandleSignData` | src/domain/crypto.rs:66-165 | a failed type query falls back to RSA and never fails the request; in every run that opens the container the one signature attempted matches the type found |
| `Handlers.HandleRsaSignData` | src/domain/crypto.rs:208-281 | success if and only if authorized and signed with RSA |
| `Handlers.HandleCipher` | src/domain/crypto.rs:341-438 | a given key must have 16 bytes and is set before use, whatever the outcome; success if and only if authorized and every call succeeds |
| `Handlers.HandleCreatePkcs10` | src/domain/crypto.rs:631-731 | a failed create is forgiven exactly for a named container that opens; a failed random number never matters |
| `Handlers.FinishPkcs10` | src/domain/crypto.rs:733-865 | key, digest open, update, final and signature happen in that order, each only after the one before succeeded, whatever the outcome |
| `Handlers.Handle` | src/domain/crypto.rs:603-906 | whatever the provider answers, every guard opened is closed exactly once before the reply, last opened first; outcome, effects and, for every outcome, the calls made up to the first failure that is not forgiven are those of the request |
| `HandlerCalls.DoneDidItsWork` | src/domain/crypto.rs:398-437 | a request answered as done has opened what it needs and made exactly its own calls, each operation named |
| `HandlerCalls.WillingMeans` | src/domain/crypto.rs:631-865 | which of the provider's answers each method needs, and which failures it forgives |
| `HandlerCalls.NoPinNoKeyOperation` | src/domain/container.rs:113-117 | without a PIN nine methods are denied and three are not |
| `HandlerCalls.NestingCounts` | src/domain/container.rs:93-95 | in a well nested trace what is open was opened once more than closed, all else as often |
| `HandlerCalls.ClosedAfterChildren` | src/provider/native.rs:123-140 | a close finds nothing open that was opened on it |
| `HandlerCalls.EverythingIsClosed` | src/domain/crypto.rs:636-865 | every reply leaves each kind of resource opened exactly as often as closed |
| `Connection.LastGrantIsPin` | src/domain/pin.rs:117-120 | the last grant in the table's history is the last PIN request that still counts |
| `Connection.HoldsIsLoggedIn` | src/domain/mod.rs:91-99 | the table's verdict at a request equals the rule stated over the requests alone |
| `Connection.RunConnection` | src/main.rs:214-294 | over any run of requests, answers and timeouts, a gated request succeeds if and only if the provider does its part and a PIN for that application was verified on the same state within the lifetime and not forgotten since, and every request makes exactly the calls its answers and its login allow |
| `Connection.OnlyCreatePkcs10Keeps` | src/domain/crypto.rs:655-668 | after a PIN and a request that finds no application, a gated request succeeds if and only if that request was a `CreatePKCS10` |
| `Connection.SampleRunSigns` | src/domain/crypto.rs:655-668 | PIN, `CreatePKCS10` with a failing application, then a signature that goes through |
| `Handles.MintInjective` | src/session/handles.rs:128-135 | two handles are equal only when kind and number are |
| `Handles.RightKindIsPrefix` | src/session/handles.rs:137-154 | the kind check passes if and only if the text before the first dash is the expected prefix |
| `Handles.NeverReissued` | src/session/handles.rs:128-135 | no handle is issued twice by one table, not even after removal or for another kind |
| `Handles.HeldMeaning` | src/session/handles.rs:242-245 | what is held is issued minus removed, and every held handle was minted for its kind |
| `Handles.OfKindSizes` | src/session/handles.rs:94-100 | the four maps are disjoint and together hold every handle |
| `Handles.FoundIffOutstanding` | src/session/handles.rs:165-175 | a lookup finds a guard if and only if it was issued under that string and kind and not removed since |
| `Handles.LookupReasons` | src/session/handles.rs:137-154 | a lookup says wrong kind if and only if the text before the first dash is not the prefix, and unknown if it is and the handle is not held |
| `Handles.HandleTable.Issue` | src/session/handles.rs:158-163 | the ledger gains one lawful entry for that guard |
| `Handles.HandleTable.Borrow` | src/session/handles.rs:165-169 | the answer is the ledger's: found, unknown, or wrong kind by prefix alone |
| `Handles.HandleTable.Remove` | src/session/handles.rs:171-175 | the ledger's answer, and a removal recorded exactly when found |
| `Handles.HandleTable.Len` | src/session/handles.rs:242-245 | issued minus removed |
| `HandleBranches.Serve` | src/main.rs:2424-2585 | a new handle carries the next number of the session, and each branch accepts a handle if and only if the transcript says it is live |
| `HandleBranches.ServeConnect` | src/main.rs:654-677 | a connected device becomes live under the handle sent back |
| `HandleBranches.ServeInit` | src/main.rs:2488-2498 | the digest and, under the next number, its device become live |
| `HandleBranches.ServeRemoval` | src/main.rs:1456-1474 | a live handle ends, and only that one, whether or not the last call on it succeeds |
| `HandleBranches.RunSession` | src/main.rs:2424-2585 | over any session new handles carry the next number, a handle works exactly from the reply that gave it to the request that ends it, and the table's size is the balance of the transcript |
| `HandleSessions.NeverToldTwice` | src/session/handles.rs:128-135 | no handle is told to a client twice in one session, not even after its end |
| `HandleSessions.EndedDigestIsRefused` | src/main.rs:2550-2585 | once a digest was finished, even in vain, or closed, its handle is refused for ever |
| `HandleSessions.DisconnectedIsRefused` | src/main.rs:1466-1472 | once a device was disconnected its handle is refused for ever |
| `HandleSessions.FairIsSorted` | src/main.rs:2488-2498 | while a client disconnects only devices it was told of, the table holds exactly its open devices, its open digests and one untold device for each digest ever started |
| `HandleSessions.TidyClientLeaves` | src/main.rs:2488-2498 | a client that ends every handle it was told and disconnects no other leaves one device for each digest it started, so none if and only if it started none |
| `HandleSessions.OneDigestLeavesADevice` | src/main.rs:2576-2583 | one digest started and closed leaves one device, `dev-2` |
| `Der.LengthRoundTrip` | src/crypto/mod.rs:52-61 | the length reads back, whatever follows it, if and only if it is at most 65535 |
| `Der.LengthFailsAt65536` | src/crypto/mod.rs:52-61 | the first length past the bound is written as a padded zero that no strict reader accepts |
| `Der.HeaderIsUnique` | src/crypto/mod.rs:52-61 | one header per length, so the form is the shortest |
| `Der.TlvRoundTrip` | src/crypto/mod.rs:63-69 | an element reads back as itself if and only if its content fits |
| `Der.ReadAllRoundTrip` | src/crypto/mod.rs:71-87 | a list of fitting elements reads back as that list |
| `Der.DerWrap` | src/crypto/mod.rs:63-69 | the bytes of one element |
| `Der.DerCollect` | src/crypto/mod.rs:71-87 | one element around the concatenated parts |
| `Der.DerBitString` | src/crypto/mod.rs:104-109 | a bit string of whole bytes |
| `Der.DerEncodeInteger` | src/crypto/mod.rs:27-50 | the encoding of the unsigned value, hence independent of leading zeros |
| `Der.IntegerBodyIsCanonical` | src/crypto/mod.rs:27-50 | that body has the value, is non-negative and minimal, and is the only such body |
| `Der.SmallIntegerIsCanonical` | src/crypto/mod.rs:111-114 | agrees with the general encoder if and only if the value is below 128 |
| `Subject.KeyValueFragment` | src/crypto/mod.rs:144-164 | a fragment gives its trimmed key and value with the right string tag, or nothing for an unknown key |
| `Subject.MalformedFragment` | src/crypto/mod.rs:144-146 | a fragment without an equals sign contributes nothing |
| `Subject.AttributesConcat` | src/crypto/mod.rs:144-169 | attributes of a list are those of its halves, in order |
| `Subject.EncodeRdn` | src/crypto/mod.rs:158-167 | the element of one attribute, country as PrintableString |
| `Subject.BuildSubjectDn` | src/crypto/mod.rs:141-172 | the Name of exactly the recognised attributes, in source order |
| `KnownAnswers.CommonName` | src/crypto/mod.rs:149-149 | `CN` in either case is 2.5.4.3 as UTF8String, for every value |
| `KnownAnswers.Organization` | src/crypto/mod.rs:150-150 | `O` is 2.5.4.10 |
| `KnownAnswers.OrganizationalUnit` | src/crypto/mod.rs:151-151 | `OU` is 2.5.4.11 |
| `KnownAnswers.Country` | src/crypto/mod.rs:152-164 | `C` is 2.5.4.6 as PrintableString |
| `KnownAnswers.StateOrProvince` | src/crypto/mod.rs:153-153 | `ST` is 2.5.4.8 |
| `KnownAnswers.Locality` | src/crypto/mod.rs:154-154 | `L` is 2.5.4.7 |
| `KnownAnswers.Email` | src/crypto/mod.rs:155-155 | `E` is 1.2.840.113549.1.9.1 |
| `KnownAnswers.EmailInFull` | src/crypto/mod.rs:155-155 | so is `Email` |
| `KnownAnswers.EmailAddress` | src/crypto/mod.rs:155-155 | so is `emailAddress` |
| `KnownAnswers.SpacesAndEquals` | src/crypto/mod.rs:145-158 | white space around key and value goes, and the value may hold an equals sign |
| `KnownAnswers.CountryName` | src/crypto/mod.rs:165-171 | the Name of `C=CN` in full |
| `KnownAnswers.IntegerForms` | src/crypto/mod.rs:27-50 | four integers in full |
| `Subject.NameRoundTrip` | src/crypto/mod.rs:141-172 | that Name decodes to exactly those attributes if and only if it fits |
| `Csr.BuildSm2Spki` | src/crypto/mod.rs:174-186 | the key information of the right-aligned coordinates |
| `Csr.BuildRsaSpki` | src/crypto/mod.rs:188-199 | the key information of modulus and exponent as numbers |
| `Csr.RequestLayout` | src/domain/crypto.rs:774-778 | the order and tags of a request's parts in bytes |
| `Csr.Sm2KeyLayout` | src/crypto/mod.rs:174-186 | the key information of a point, byte for byte, x before y |
| `Csr.RsaKeyLayout` | src/crypto/mod.rs:188-199 | the key information of an RSA key, modulus before exponent |
| `Csr.BuildTbs` | src/domain/crypto.rs:774-778 | version 0, the subject's Name, the key and empty attributes |
| `Csr.SignatureBits` | src/domain/crypto.rs:821-827 | the two numbers of the right-aligned halves |
| `Csr.AssembleCsr` | src/domain/crypto.rs:867-874 | the request around the bytes that were hashed |
| `Csr.CsrRoundTrip` | src/domain/crypto.rs:774-874 | the request decodes to exactly its parts if and only if it fits in 65535 bytes |
| `Csr.SignedBytesAreTbs` | src/domain/crypto.rs:780-818 | the first element of the outer sequence is byte for byte the encoded TBS |
| `Csr.SignDataDer` | src/domain/crypto.rs:127-145 | the two numbers of the full 64-byte halves |
| `Csr.HandBuiltSequence` | src/domain/crypto.rs:133-143 | the hand-written header is right if and only if the content has fewer than 256 bytes |
| `Csr.SignaturesAgree` | src/domain/crypto.rs:821-827 | both handlers encode one token signature alike if and only if its halves are right-aligned |
| `Csr.SignaturesCanDiffer` | src/domain/crypto.rs:127-145 | one byte left of the right-aligned half makes the two encodings differ |
| `Csr.DigestInfoPrefix` | src/domain/crypto.rs:841-851 | the fixed prefix makes a DigestInfo if and only if the hash has 32 bytes |
| `CreateRequest.CreatePem` | src/domain/crypto.rs:774-888 | the printed request decodes to its parts if and only if it fits, and then the signed bytes a reader finds are the bytes the token hashed, the key is the right-aligned point or the two RSA numbers of the token's blob, the algorithm is the one of its kind, and the signature is the token's |
| `Base64.RoundTrip` | src/protocol/params.rs:148-157 | decoding undoes encoding |
| `KnownAnswers.Alphabet` | src/protocol/params.rs:148-157 | the 64 symbols of RFC 4648 |
| `KnownAnswers.ManInBase64` | src/protocol/params.rs:148-157 | a full and both padded groups |
| `KnownAnswers.HandleTexts` | src/session/handles.rs:58-67 | the texts of handles of the four kinds |
| `KnownAnswers.ForeignHandles` | src/session/handles.rs:143-154 | what an empty table says to foreign, mistyped and old handles |
| `KnownAnswers.OneLinePem` | src/domain/crypto.rs:878-888 | a request of one line in full |
| `Base64.Canonical` | src/protocol/params.rs:148-157 | the decoder accepts nothing but encodings |
| `Base64.PayloadGuard` | src/protocol/params.rs:31-41 | an encoded payload comes back whole if and only if it has at most 262146 bytes |
| `Base64.LimitIsExceeded` | src/protocol/params.rs:35-41 | a payload two bytes over the advertised limit still passes |
| `Base64.PayloadBound` | src/protocol/params.rs:133-157 | nothing longer than that is ever returned, whatever was sent |
| `Pem.PrintPem` | src/domain/crypto.rs:876-888 | the loop prints markers around lines of 64 columns |
| `Pem.ChunkWidths` | src/domain/crypto.rs:879-887 | every line is non-empty and at most 64 wide, all but the last exactly 64, and together they are the body |
| `Pem.StripUndoesPrint` | src/main.rs:864-874 | stripping gives back the body for every body without dashes and line breaks |
| `Pem.RequestRoundTrip` | src/main.rs:864-877 | a printed request is decoded whole by the issuing side |
| `EnvExpand.ReadName` | src/config/mod.rs:81-91 | the inner loop reads up to the next percent sign or the end |
| `EnvExpand.Resolve` | src/config/mod.rs:93-106 | a closed name gives its value or itself between percent signs; an unclosed or empty one gives the sign and what was read |
| `EnvExpand.ScanUnit` | src/config/mod.rs:79-110 | one turn of the scanner consumes exactly the first unit of the remaining text and emits what stands for it |
| `EnvExpand.ExpandEnvVars` | src/config/mod.rs:75-112 | the scanner computes the one-pass definition |
| `EnvExpand.ExpandIsCombine` | src/config/mod.rs:75-112 | the one-pass definition equals splitting at percent signs and joining again |
| `EnvExpand.ExpandConcat` | src/config/mod.rs:75-112 | after a prefix with an even number of percent signs the rest expands on its own |
| `EnvExpand.ReferenceExpands` | src/config/mod.rs:93-106 | after any balanced prefix a reference becomes the variable's value, or stays when there is none; an empty pair becomes one percent sign |
| `EnvExpand.PlainTextStays` | src/config/mod.rs:107-109 | text without a percent sign is left alone |
| `EnvExpand.UnclosedTail` | src/config/mod.rs:103-106 | an unclosed reference is copied as it stands |
| `EnvExpand.ExpandWithoutVariables` | src/config/mod.rs:93-106 | with no variables only empty pairs shrink, by one sign each |
| `RotatingLog.RotationDropsOldest` | src/logging.rs:136-151 | a rotation forgets exactly the oldest numbered file |
| `RotatingLog.RotationBoundsFiles` | src/logging.rs:136-151 | the directory stays within keep numbered files if and only if keep is at least 1 |
| `RotatingLog.RotatingFileLogger.constructor` | src/logging.rs:116-129 | continues the size count of an existing file |
| `RotatingLog.RotatingFileLogger.Rotate` | src/logging.rs:136-166 | the descending loop leaves every file where the rotation says |
| `RotatingLog.RotatingFileLogger.Log` | src/logging.rs:190-207 | the line is last in the active file, after a rotation if it would not fit |
| `RotatingLog.LogIsExact` | src/logging.rs:197-206 | a line that fits is added and nothing else changes; one that does not starts a new active file and the old one becomes `.1` |
| `RotatingLog.AlwaysWellKept` | src/logging.rs:116-207 | after any lines the files hold a suffix of everything written and the active file is at most the limit or the last line; with keep at least 1 at most keep + 1 files exist |
| `RotatingLog.NothingLostYet` | src/logging.rs:136-166 | up to keep rotations the newest files, one for each, and the active one hold exactly what was there at first and every line since |
| `RotatingLog.RecentLinesAreKept` | src/logging.rs:136-207 | in any run the last lines that caused at most keep rotations are all still in the files |
| `RotatingLog.LogAll` | src/logging.rs:190-207 | the same of the class, for every directory and every sequence of lines |

## Left out

- The branches of `handle_request` that call `SkfApi` directly (`EnumApplication`, `FindCertificates`, `ImportKeyPair`, `LockDev`, `Transmit` and others): hand-closed handles outside the guards. In `Connection` they are `Other` requests that may check and clear grants and never give one; whether `ImportKeyPair` succeeds is not stated, and its double close on the unauthorized return is not modelled.
- `src/skf/api.rs`, `src/skf/types.rs`, the cryptography itself, x509 parsing and randomness: the token is an oracle, and session ids are assumed distinct.
- `IssueCertificate`, except for its PEM stripping.
- WebSocket frames, HTTP, JSON, YAML, message texts and localisation; a malformed parameter list is one flag of a request.
- `src/win_service.rs`, `src/service_state.rs`, `src/diagnostic.rs` and `src/domain/classification.rs`: Windows service calls, a state file, a printed report and constant tables of error classes.
- The session registry, the session guard and the native guards are modelled on values, as the states of transition systems, so that every interleaving is covered; their Rust classes are not rebuilt as Dafny classes.
- The gate is per provider instance. Providers of other aliases get a gate per resolve, and direct calls take none, so exclusion is claimed for one instance only.
- Panics while the gate is held and the recovery of a poisoned mutex.
- The fake provider, which records a device as closed as soon as its guard drops.
- Unicode: white space is the ASCII kind and upper-casing is of ASCII letters; lossy decoding is not modelled.
- Overflow of the 64-bit handle counter and of the log's byte count.
- Faults of the file system in the logger: every rename, open and write succeeds.
- DerEncodeInteger: an empty slice panics in the program and is excluded by a precondition.
- BuildRsaSpki: an RSA key of fewer than 8 or more than 2048 bits panics in the program and is excluded by a precondition.
- `AuthRejection::DeviceUnavailable`: no check ever returns it.
- The container name a `CreatePKCS10` makes up from random bytes or the time.
