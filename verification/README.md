# LabKeeper verification

A Dafny model of the parts of LabKeeper whose correctness depends on more than one function: the SHA-256 fallback
of the Portal and its base64url coding, the shell protocol between Server and Agent, the LAN scan, host
reachability, the credential vault, console tickets, and the Portal's silent token refresh.

`dafny verify dfyconfig.toml` checks everything.

## How the program is modelled

- **SHA-256** (`JsNumber.dfy`, `Fips180.dfy`, `FipsConstants.dfy`, `FipsMeaning.dfy`, `Sha256.dfy`). `Fips180` is a
  recursive specification written from FIPS 180-4 (sections 4.1.2, 4.2.2, 5.1.1, 5.3.3, 6.2.2). `FipsConstants` proves
  that its two tables are what the standard says they are, fractional parts of cube and square roots of the first 64
  and the first 8 primes, and `FipsMeaning` what its functions do to each bit. `JsNumber` gives the JavaScript operators on mathematical
  integers, with the signed results of `&`, `|`, `^`, `~`, `<<` and the unsigned one of `>>>`. `Sha256` has the
  loops of the source over arrays, with the schedule and the registers overwritten in place.
- **Base64** (`Base64.dfy`). `btoa`, `atob` and the Go standard decoder on text, with the characters they skip and
  the padding they want; the coding is tied to the 24-bit groups and the two tables of RFC 4648.
- **Shell protocol** (`ShellSession.dfy`, `ShellInvariants.dfy`, `ShellRuns.dfy`, `ShellOpens.dfy`, `ShellInput.dfy`,
  `ShellProgress.dfy`, `ShellMux.dfy`). Both ends of one session as a step system: one step is one access to a map
  under its mutex, one message written, or one statement of a `sync.Once` body. `ShellOpens` says which callers of
  `OpenShell` get a session, `ShellInput` what becomes of what they type. `ShellMux` puts any number of sessions on one pair of wires and shows that each behaves as
  if it were alone; `ShellProgress` shows that a session comes to rest. `HubRegistry.dfy` and `AgentManager.dfy` have
  the same code as classes whose methods run undisturbed, and `HubSteps.dfy` ties those methods to the steps.
  `LockOrder.dfy` reduces the hub to the locks its goroutines take.
- **LAN scan** (`Cidr.dfy`, `IpText.dfy`, `ScanPool.dfy`, `ScanResults.dfy`). Address arithmetic on 32-bit values,
  and the producer, the 64 workers and the deadline as a step system over one bounded channel.
- **Credential vault** (`TrimText.dfy`, `Credentials.dfy`, `VaultRows.dfy`, `VaultSecrets.dfy`, `VaultRuns.dfy`).
  `VaultSecrets` follows a secret from the request to the login. AES-GCM and SSH key
  parsing are arbitrary functions; all that is assumed of them is that opening undoes sealing and, where a theorem
  says so, that a key read under two passphrases is one key. White space is Go's.
- **Hosts** (`Hosts.dfy`, `HostFields.dfy`, `HostRuns.dfy`). The hosts table is a map with the atomic steps of its
  repository; service calls are split into the read of a row and the later write of the whole row. `HostFields` says
  what each call makes of each field.
- **Tickets** (`Tickets.dfy`), **refresh** (`Refresh.dfy`, `RefreshRuns.dfy`, `RefreshTokens.dfy`,
  `RefreshLosses.dfy`). The ticket store is a class; the
  refresh logic is a step system in which the code between two awaits is one step.

Time is a number that does not run backwards, random sources are inputs that may fail, new identifiers are new, and
what the network, the terminal and the identity provider answer is arbitrary. A WebSocket whose write failed fails
every later write.

Some promises have a condition that the program does not always meet. For each the exact condition is proved, with a
run that fails it:

- At rest, Server and Agent agree about a session if and only if it is not the case that `shell_close` was written
  ahead of `shell_open` and the Agent has opened a shell since that has not ended (`ShellRuns.EndsAgree`). Only a
  connection replaced between the entry into the Server's map and the writing of `shell_open` gets there
  (`ShellRuns.OnlyShutdownClosesFirst`), and one can (`ShellRuns.OrphanReachable`).
- A scan that returns without an error misses a live host exactly if the host was left in the channel or given up by
  a worker, which happens only after the deadline (`ScanResults.MissesLiveExactly`). It can happen to any live host
  of any network (`ScanResults.LateDeadlineGoesUnreported`).
- After an update a vault row can be used for SSH login exactly as `VaultRows.UpdateUsable` says: an update that
  clears the passphrase of a key that cannot be read without one ends it (`VaultRuns.ClearingLocksOut`).
- A host whose Agent has left stays shown disconnected, until the Agent is back, exactly as long as no call writes a
  connected copy of the row that it held when the departure was written (`HostRuns.DepartureLasts`). Any successful
  Portal edit that read the row before the departure is such a call (`HostRuns.StaleEditRevivesPresence`).
- What the page holds can be posted, in every state of a run, if and only if no answer or login stored a closed refresh
  token (`RefreshRuns.RunHolds`). A provider that rotates its tokens never makes it store one
  (`RefreshRuns.ClosedTokenNeverPosted`); one that omits the new token does, and it is posted again
  (`RefreshRuns.OmittedTokenComesBack`).
- Signing out is final, until the next login, if and only if no refresh was under way (`RefreshRuns.LogoutUndone`), and
  a login is safe from what began before it if and only if the page was calm: no refresh could still be refused, and no
  call was left that could come to give up (`RefreshLosses.LoginLostExactly`).

One promise has a condition that the program does meet. From the boot on, hosts shown connected are always shown online
if and only if the boot call never writes a copy of a connected row (`HostRuns.OnlineExactly`), and all rows and copies
are always in order if and only if it never lists a connected host without a probe target (`HostRuns.RunInOrder`). The
boot call ends before the Agent listener opens (`internal/inventory/hub.go:72-90`), so neither can happen;
`HostRuns.BootSeesAgentBreaks` is the run that the order of these two steps prevents.

## Model

| member | source | states |
|---|---|---|
| Sha256.Sha256Pure | web/src/lib/sha256.ts:12-102 | The in-place algorithm returns the FIPS 180-4 digest for every input shorter than 2^29 bytes, and fails with a range error exactly from 2^32 - 72 bytes on; in between it still hashes the buffer it built |
| Sha256.MakePaddedBuffer | web/src/lib/sha256.ts:32-39 | The buffer built in place is the specified one; rounding up in signed 32-bit arithmetic makes it too small exactly from 2^32 - 72 bytes on |
| Sha256.CopyAndMark | web/src/lib/sha256.ts:35-37 | Message, then the marker byte, then zeros up to the length word |
| Sha256.SetUint32 | web/src/lib/sha256.ts:38-39 | Writes the low 32 bits big-endian and touches no other byte |
| Sha256.FillSchedule | web/src/lib/sha256.ts:50-57 | After the two loops the reused buffer holds the message schedule of the current block, word by word |
| Sha256.CompressBlock | web/src/lib/sha256.ts:59-88 | The rotating registers end as the compression function of the standard, for any block and chaining value |
| Sha256.HashBuffer | web/src/lib/sha256.ts:41-89 | The loop over blocks chains the compression function over the whole buffer from the initial hash value |
| Sha256.WriteDigest | web/src/lib/sha256.ts:91-101 | Eight words come out big-endian in order |
| Sha256.PaddingIsStandard | web/src/lib/sha256.ts:32-39 | The buffer equals the padding of section 5.1.1 if and only if the message is shorter than 2^29 bytes |
| Sha256.PaddedLayout | web/src/lib/sha256.ts:32-39 | Length is the least multiple of 64 that is at least len + 9; message, marker and length word do not overlap |
| Sha256.PaddingInjective | web/src/lib/sha256.ts:32-39 | Distinct messages below 2^29 bytes get distinct buffers |
| Sha256.RotrAgrees | web/src/lib/sha256.ts:24 | The shift-and-or on signed numbers is the rotation of the unsigned word |
| Sha256.ChAgrees | web/src/lib/sha256.ts:25 | `ch` is Ch of section 4.1.2 modulo 2^32, for all signed arguments |
| Sha256.MajAgrees | web/src/lib/sha256.ts:26 | `maj` is Maj of section 4.1.2 modulo 2^32 |
| Sha256.S0Agrees | web/src/lib/sha256.ts:27 | `s0` is the big Sigma 0 function |
| Sha256.S1Agrees | web/src/lib/sha256.ts:28 | `s1` is the big Sigma 1 function |
| Sha256.G0Agrees | web/src/lib/sha256.ts:29 | `g0` is the small sigma 0 function |
| Sha256.G1Agrees | web/src/lib/sha256.ts:30 | `g1` is the small sigma 1 function |
| Sha256.ScheduleAgrees | web/src/lib/sha256.ts:56 | A sum of signed and unsigned parts reduced by `>>> 0` is the schedule word |
| Sha256.RoundAgrees | web/src/lib/sha256.ts:69-78 | One pass of the register shuffle is one round of section 6.2.2 |
| FipsConstants.RoundConstants | web/src/lib/sha256.ts:13-22 | For every t: with n the integer cube root of the t-th prime p, word t of the table is the first 32 bits of the fractional part of the cube root of p, as section 4.2.2 defines it |
| FipsConstants.InitialHash | web/src/lib/sha256.ts:41-48 | The same for the eight initial words and square roots, as section 5.3.3 defines them |
| FipsConstants.FirstPrimes | web/src/lib/sha256.ts:13-22 | The 64 numbers behind the tables are prime, begin with 2, and no prime lies between neighbours |
| FipsMeaning.RotRBit | web/src/lib/sha256.ts:24 | Rotation moves every bit by n places, around the word |
| FipsMeaning.ChChooses | web/src/lib/sha256.ts:25 | Every bit of the first word chooses between those of the other two |
| FipsMeaning.MajVotes | web/src/lib/sha256.ts:26 | Every bit is the one that at least two of the three words have |
| FipsMeaning.SigmaBits | web/src/lib/sha256.ts:27-30 | In each of the four functions every bit is the parity of three given bits of the word |
| FipsMeaning.BigEndianByte | web/src/lib/sha256.ts:38-53 | Bytes of a word are written highest first |
| FipsMeaning.WordReadsBack | web/src/lib/sha256.ts:50-53 | Reading a word from four bytes and writing it gives back the bytes |
| JsNumber.BitwiseResidues | web/src/lib/sha256.ts:24-30 | A bitwise operator sees only the unsigned residues of its operands, whatever their signs |
| JsNumber.MaskedTo64 | web/src/lib/sha256.ts:34 | Masking with `~63` and `>>> 0` rounds the 32-bit residue down to a multiple of 64 |
| Base64.Base64UrlEncode | web/src/lib/oidc.ts:58-64 | The character loop, `btoa`, two replacements and the stripping give the unpadded URL form, for every byte sequence |
| Base64.StrippedIsUrl | web/src/lib/oidc.ts:63 | Swapping two characters and stripping `=` turns the standard form into that of section 5 of RFC 4648 |
| Base64.UrlRoundTrip | web/src/lib/oidc.ts:124-139 | The decode inside `readJwtExpMs` recovers the bytes from unpadded URL text |
| Base64.VerifierLength | web/src/lib/oidc.ts:52-64 | n bytes give ceil(4n/3) characters; the text is a code verifier of section 4.1 of RFC 7636 if and only if n is 32 to 96 |
| Base64.UrlInjective | web/src/lib/oidc.ts:58-64 | Distinct byte sequences give distinct texts |
| Base64.StdRoundTrip | cmd/agent/shell.go:141-153 | What the Agent encodes, the Go decoder and `atob` both give back |
| Base64.SextetsAreGroups | web/src/lib/oidc.ts:58-64 | For every group, the four six-bit digits and the three bytes are the same 24-bit number, absent bytes being zero (section 4 of RFC 4648) |
| Base64.AlphabetsAreStandard | web/src/lib/oidc.ts:63 | The characters are those of tables 1 and 2 of RFC 4648 |
| Base64.StdDecodeAccepts | internal/inventory/hub.go:380-390 | The Go decoder accepts exactly whole groups of alphabet characters, the last one padded by at most two, with line breaks anywhere |
| ShellInvariants.StepKeepsInv | internal/inventory/hub.go:121-185 | Every step of either end, or a failing connection, keeps the joint invariant of both ends and both wires |
| ShellInvariants.ServerKeeps | internal/inventory/hub.go:335-486 | Every step of the Server's goroutines keeps the once-flags, the result channel and the map consistent |
| ShellInvariants.AgentKeepsUp | cmd/agent/shell.go:78-183 | Every Agent step keeps the order of what it has written about the session |
| ShellInvariants.AgentKeepsHandshake | cmd/agent/shell.go:141-215 | Every Agent step keeps the account of who has closed and who must be told |
| ShellInvariants.ServerKeepsHandshake | internal/inventory/hub.go:363-486 | Every Server step keeps that account too |
| ShellRuns.RunKeepsInv | internal/inventory/hub.go:121-185 | The joint invariant holds in every state of every interleaving |
| ShellRuns.OnceEach | internal/inventory/hub.go:410-414 | At most one value is ever sent on `openResult`, its sender never blocks, and the teardown body starts at most once |
| ShellRuns.NeverReappears | internal/inventory/hub.go:143-145 | A session that has left the map never comes back |
| ShellRuns.ClosedForGood | internal/inventory/hub.go:147-185 | Once `OpenShell` has failed or `Close` has returned, the session is out of the map for the rest of the run |
| ShellRuns.OneCloseEach | internal/inventory/hub.go:470-486 | Each side writes at most one `shell_close` for the id, however the causes race |
| ShellRuns.NoSecondClose | internal/inventory/hub.go:470-486 | Over runs: once a side has written its close, nothing it writes later is another, whatever it reads |
| ShellRuns.EchoIsSilent | cmd/agent/shell.go:198-215 | Over runs: a close that ends the shell on the Agent is never echoed; a close for an unknown id changes nothing, at either end |
| ShellRuns.AgentWireOrder | cmd/agent/shell.go:78-183 | `shell_opened` precedes all data and closes of the id; a refused id gets `shell_error` and nothing else |
| ShellRuns.ServerWireOrder | internal/inventory/hub.go:147-160 | `shell_open` is written at most once and before any input; a close precedes it only after a shutdown |
| ShellRuns.NoneOutlives | cmd/agent/shell.go:53-63 | Over runs: once the connection has failed and the shells were swept, the Agent holds the session at most while an opening is about to fail, and at rest not at all |
| ShellRuns.OutputIsPrefix | internal/inventory/hub.go:380-425 | What the Server's stdout has received is a prefix of what the PTY produced, across chunks, coding and late data |
| ShellRuns.OutputIsComplete | cmd/agent/shell.go:141-162 | With the session open and nothing in transit, all of it has arrived |
| ShellRuns.HandshakeEnds | internal/inventory/hub.go:392-396 | At rest the Server holds the session exactly until something closes it, and the Agent exactly if the Server does or the shell is orphaned |
| ShellRuns.EndsAgree | internal/inventory/hub.go:392-396 | At rest both ends hold the session or neither does, if and only if the shell is not orphaned: closed before it was asked for, opened by the Agent, and not ended |
| ShellRuns.OnlyShutdownClosesFirst | internal/inventory/hub.go:349-361 | That exception needs a shutdown of the connection |
| ShellRuns.OrphanReachable | internal/inventory/hub.go:143-147 | An orphaned shell at rest is reachable: a replaced connection leaves it on the Agent, and the Server has given it up |
| ShellOpens.OpenReturnsExactly | internal/inventory/hub.go:162-185 | In every run `OpenShell` hands the session to its caller if and only if the value it takes off the channel was sent because the read loop handled `shell_opened` for a session it knew; otherwise it goes on to close it |
| ShellOpens.SucceedsOnlySo | internal/inventory/hub.go:162-185 | It succeeds in no other way than by taking a value |
| ShellOpens.OpenIsReachable | internal/inventory/hub.go:121-185 | A session can be opened: at rest, held at both ends, with its caller |
| ShellOpens.OutputArrives | internal/inventory/hub.go:380-390 | Any chunk that the PTY produces then, up to the buffer of 32 KiB, can arrive in the reader of its stdout |
| ShellInput.RunKeepsInput | internal/inventory/hub.go:431-447 | In every run: all that was typed is on the wire in order unless the wire failed, and the PTY has a prefix of what was read off it, all of it while the Agent has the session |
| ShellInput.InputIsPrefix | cmd/agent/shell.go:169-183 | What the PTY has taken is a prefix of what was typed at the Portal, across coding, closing and failing writes |
| ShellInput.InputIsComplete | cmd/agent/shell.go:169-183 | While the Agent has the session, with a whole wire and nothing in transit, it is all of it |
| ShellInput.InputArrives | internal/inventory/hub.go:431-447 | Anything typed in an open session can arrive |
| ShellProgress.StepBurns | cmd/agent/shell.go:78-215 | Every step of either end that is not output or typing uses up a bounded supply, apart from sweeps and empty deliveries, which add nothing |
| ShellProgress.WorkIsBounded | internal/inventory/hub.go:121-185 | Over every run, the steps of work are at most 49, and 6 for each chunk, 1 for each of its bytes and 10 for each input besides |
| ShellProgress.NeverStuck | internal/inventory/hub.go:329-486 | In every reachable state that is not at rest some step of work is possible, on whole and on failing wires: the handshake ends |
| ShellMux.ConnStepRefines | internal/inventory/hub.go:329-361 | A step of a connection with many sessions is, for each of them, one step of its own or none |
| ShellMux.EachSessionAlone | internal/inventory/hub.go:252-318 | In every interleaving over shared wires every session is in a state it can reach alone |
| ShellMux.NoIdClosedTwice | internal/inventory/hub.go:470-486 | On the shared wires neither side closes an id twice |
| ShellMux.OutputsNeverMix | internal/inventory/hub.go:380-390 | Each terminal reads a prefix of its own PTY's output |
| ShellMux.InputsNeverMix | cmd/agent/shell.go:169-183 | Each PTY is fed a prefix of what was typed at its own terminal |
| ShellMux.ClosedForGoodShared | internal/inventory/hub.go:335-341 | On a shared connection too, a released session stays out of the map |
| AgentManager.ShellProcess.Close | cmd/agent/shell.go:25-36 | Whatever came before, the channel and the PTY are closed and the process is killed and waited for |
| AgentManager.ShellManager.Open | cmd/agent/shell.go:78-139 | The table, the process and the message for each outcome: no id, no PTY, failed write, opened; a predecessor under the id is closed |
| AgentManager.ShellManager.Write | cmd/agent/shell.go:169-183 | Decoded input reaches the PTY; only a failing PTY ends the shell, removes it and tells the Server |
| AgentManager.ShellManager.CloseShell | cmd/agent/shell.go:198-215 | The shell leaves the table and is closed; a close is written exactly if it was there and notice is wanted |
| AgentManager.ShellManager.CloseAll | cmd/agent/shell.go:53-63 | The table ends empty, every shell that was in it is closed, and nothing is written |
| AgentManager.StepsMatchClose | cmd/agent/shell.go:198-215 | At each of the six places that close a shell, the steps, uninterrupted, do to the session what the method does to the object |
| AgentManager.StepsMatchOpen | cmd/agent/shell.go:78-139 | So do the steps of an open, refused, on a whole and on a failing connection, wherever the Agent can be asked |
| AgentManager.StepsMatchWrite | cmd/agent/shell.go:169-183 | So do the steps of an input: what the PTY is fed, and what becomes of the session when it fails |
| LockOrder.CodeRises | internal/inventory/hub.go:121-202 | Every routine of the hub takes its locks in rising rank (hub, then a shell's once, then a connection) and gives all back |
| LockOrder.CodeLocks | internal/inventory/hub.go:121-202 | For every routine, exactly which locks it takes and which of them while it holds another: the connection inside the first teardown of a shell, and all that a replaced connection needs inside the mutex of the hub |
| LockOrder.GoroutineRises | internal/inventory/hub.go:329-486 | So does any sequence of calls by one goroutine |
| LockOrder.SomeoneMoves | internal/inventory/hub.go:187-202 | Among goroutines that take locks in rising rank, one that has something left can move |
| LockOrder.HubNeverDeadlocks | internal/inventory/hub.go:187-202 | No schedule of any calls reaches a state in which all unfinished goroutines wait, also when a live connection is replaced under the hub mutex |
| HubRegistry.AgentShell.FailOpen | internal/inventory/hub.go:410-414 | The first call puts its value on the channel, later ones nothing |
| HubRegistry.AgentShell.WriteStdout | internal/inventory/hub.go:416-425 | Data after close is dropped; a broken pipe ends the session |
| HubRegistry.AgentShell.Teardown | internal/inventory/hub.go:470-486 | The first call closes, writes one close and leaves the map; later ones change nothing |
| HubRegistry.AgentConn.HandleShellOpened | internal/inventory/hub.go:363-367 | Signals success to the waiting opener, once, and keeps the session |
| HubRegistry.AgentConn.HandleShellError | internal/inventory/hub.go:369-378 | The session leaves the map, its opener is told, it is torn down |
| HubRegistry.AgentConn.HandleShellData | internal/inventory/hub.go:380-390 | Valid data for a known session is appended to its stdout, other data ignored; a broken pipe tears the session down with one close, and nothing else is written |
| HubRegistry.AgentConn.HandleShellClose | internal/inventory/hub.go:392-396 | The session leaves the map and is torn down without touching its open signal |
| HubRegistry.AgentConn.RemoveShell | internal/inventory/hub.go:335-341 | Returns the session and removes it |
| HubRegistry.AgentConn.Shutdown | internal/inventory/hub.go:349-361 | Empties the map and ends every session that was in it, each with one signal and one close at most, counted per session; no close is written for any other id |
| HubRegistry.Hub.RegisterAgent | internal/inventory/hub.go:187-194 | The new connection is known, every shell the replaced one held is ended, and an opener that was still waiting for one is told that it was replaced |
| HubRegistry.Hub.UnregisterAgent | internal/inventory/hub.go:196-202 | Removes the entry only if it is still this connection's |
| HubRegistry.Hub.Disconnect | internal/inventory/hub.go:231-235 | The handler's exit ends all shells of its connection, tells openers still waiting that the Agent is gone, and gives up its entry |
| HubRegistry.HubKnowsLast | internal/inventory/hub.go:187-202 | Over every history the entry is c exactly when c was the last to connect and was not dropped since; late drops evict nobody |
| HubSteps.StepsMatchFailOpen | internal/inventory/hub.go:410-414 | The steps of a signal, uninterrupted, do to the session what the method does to the object |
| HubSteps.StepsMatchTeardown | internal/inventory/hub.go:470-486 | So do the five steps of a teardown |
| HubSteps.StepsMatchOpened | internal/inventory/hub.go:363-367 | And those of the read loop on `shell_opened` |
| HubSteps.StepsMatchError | internal/inventory/hub.go:369-378 | On `shell_error` |
| HubSteps.StepsMatchClosed | internal/inventory/hub.go:392-396 | On `shell_close` |
| HubSteps.StepsMatchData | internal/inventory/hub.go:380-390 | On output: dropped, handed on whole, or the end of the session on a broken pipe |
| HubSteps.StepsMatchShutdown | internal/inventory/hub.go:349-361 | And one session's share of a shutdown |
| Tickets.TicketStore.PurgeLocked | internal/terminal/ticket.go:79-85 | The loop keeps exactly the tickets that have not expired |
| Tickets.TicketStore.Mint | internal/terminal/ticket.go:45-62 | Purges and stores the ticket; a failing random source changes nothing |
| Tickets.TicketStore.Consume | internal/terminal/ticket.go:64-77 | Purges, removes the ticket and returns it unless it has expired by the second clock read |
| Tickets.StoreIsUnused | internal/terminal/ticket.go:45-85 | Over every history: what is stored was minted and not used since; what was minted, not used and is not stored has expired |
| Tickets.StoreIsFresh | internal/terminal/ticket.go:79-85 | Over every history, no ticket is stored that had expired when the last call began |
| Tickets.ConsumeExactly | internal/terminal/ticket.go:64-77 | A consume succeeds if and only if the id was minted, is unused, and at most 60 s have passed on the last clock read; it returns what was asked for at the mint |
| Tickets.SingleUse | internal/terminal/ticket.go:64-77 | A consume of an id consumed before fails, unless the id was minted again in between |
| Cidr.PrivateIsRfc1918 | internal/discovery/networks.go:15-20 | The octet test accepts exactly the three blocks of section 3 of RFC 1918 |
| Cidr.ValidateExactly | internal/discovery/scan.go:34-51 | Accepted are exactly the parsed IPv4 prefixes of at most 512 addresses whose network address is private, with the host bits cleared; each error stands for exactly its cause, the earlier one first |
| Cidr.MaskedIsFloor | internal/discovery/scan.go:42 | Masking gives the multiple of the size of the prefix at or below the address |
| Cidr.NextIPv4 | internal/discovery/scan.go:88-97 | The byte-wise carry is +1 on the 32-bit value, and fails exactly at the last address |
| Cidr.ExpandHosts | internal/discovery/scan.go:53-86 | The append loop with its cap and its skips yields the specified list, for any prefix |
| Cidr.ContainsIsInterval | internal/discovery/scan.go:68 | The addresses of a prefix are one interval of its size |
| Cidr.AcceptedHosts | internal/discovery/scan.go:34-86 | For every accepted CIDR: strictly increasing, exactly the usable addresses, at most 510, never cut by the cap, all private |
| Cidr.StaysPrivate | internal/discovery/scan.go:42-44 | Testing the network address is enough: no accepted prefix leaves its private block |
| Cidr.CapOnlyBeyondAccepted | internal/discovery/scan.go:77-79 | The cap of the loop cuts the walk if and only if the prefix is shorter than /23 |
| Cidr.HostCount | internal/discovery/scan.go:100-106 | For any prefix the list has 1 to 511 consecutive entries, 511 if the cap cuts it, so neither the empty nor the too-many return of the scan is ever taken |
| IpText.DottedInjective | internal/discovery/scan.go:160 | Distinct addresses have distinct texts |
| IpText.DottedReads | internal/discovery/scan.go:160 | Cut at its dots and read as decimal numbers, the text gives the four octets, highest first |
| IpText.LessDecides | internal/discovery/scan.go:153-155 | The first character in which two texts differ decides their order; without one the shorter text is smaller |
| IpText.AscendingUnique | internal/discovery/scan.go:153-155 | A list in ascending order of text is determined by its members |
| ScanPool.StepConserves | internal/discovery/scan.go:111-151 | Every address sent is queued, in one worker's hands, or done: none is lost or duplicated by any step |
| ScanPool.StepReports | internal/discovery/scan.go:119-134 | Every step keeps: reported addresses are done, live and correctly marked, and before the deadline no live one is dropped |
| ScanPool.RunKeepsInv | internal/discovery/scan.go:99-157 | Both, and the control state, hold in every state of every schedule |
| ScanResults.ResultIsSound | internal/discovery/scan.go:99-157 | Under every schedule and deadline no address is returned twice, and each one returned was scanned, is live, and is marked known exactly if Inventory has it |
| ScanResults.ResultIsComplete | internal/discovery/scan.go:153-156 | Returned before the deadline: exactly the live hosts, in ascending order of their text |
| ScanResults.ScheduleIndependent | internal/discovery/scan.go:99-157 | Two such scans of one network return the same texts and marks in the same order |
| ScanResults.NeverStuck | internal/discovery/scan.go:111-151 | In every reachable state before the return some goroutine can move, without the deadline |
| ScanResults.StepBurns | internal/discovery/scan.go:111-151 | Every move uses up a bounded supply; the deadline's passing does not add to it |
| ScanResults.AlwaysTerminates | internal/discovery/scan.go:99-157 | No schedule has more than 6 moves per address and 1 per worker, and 2 more |
| ScanResults.ScanOfAccepted | internal/discovery/scan.go:34-157 | Validation, expansion and pool together: at most 510 candidates, all private; before the deadline exactly the usable live addresses |
| ScanResults.DoneSplits | internal/discovery/scan.go:119-134 | In every state of every run, the addresses done with are exactly those reported and those given up |
| ScanResults.MissingExactly | internal/discovery/scan.go:99-157 | Under every schedule and deadline, an address is missing from the result exactly if it was never sent, stayed in the channel, or was given up |
| ScanResults.MissesLiveExactly | internal/discovery/scan.go:142-156 | Returned without an error: a live host is missing exactly if it stayed in the channel or was given up, and then the deadline has passed |
| ScanResults.LateDeadlineGoesUnreported | internal/discovery/scan.go:142-156 | For every network of distinct addresses and every live host in it, some run returns without an error and without that host |
| TrimText.TrimIsCore | internal/credentials/credentials.service.go:88 | Trimming takes white space off both ends and leaves text that neither begins nor ends with it |
| TrimText.TrimBlank | internal/credentials/credentials.service.go:88-91 | The result is empty exactly for blank text, and trimming twice is trimming once |
| VaultCrypto.DecryptEncrypt | internal/crypto/crypto.service.go:31-61 | Splitting off the nonce again and opening gives back the plaintext; a ciphertext is never empty |
| Credentials.Vault.Create | internal/credentials/credentials.service.go:99-156 | The stepwise code stores the specified row, or fails with the specified error and changes nothing |
| Credentials.Vault.Update | internal/credentials/credentials.service.go:158-262 | The same for an update; a missing id, a failing step or a failing write leaves the table as it was |
| Credentials.Vault.ChangeSecret | internal/credentials/credentials.service.go:171-220 | Which passphrase is used to parse, what is replaced, what is validated, in the order of the source |
| Credentials.Vault.ChangeBecome | internal/credentials/credentials.service.go:222-254 | How the optional become fields combine with the stored ones |
| Credentials.Vault.SshAuth | internal/credentials/credentials.service.go:60-97 | The read path on the stored row, error by error |
| VaultRows.NormalizedBecome | internal/credentials/credentials.service.go:293-310 | Accepts exactly four method texts; blank is none, the others stay as they are; none has no user, sudo and su have the one given, trimmed, or root if it is blank |
| VaultRows.CreateSucceeds | internal/credentials/credentials.service.go:99-156 | Exactly the requests that can be served |
| VaultRows.NewRowKeeps | internal/credentials/credentials.service.go:99-156 | A created row satisfies the row invariant and can be used for login |
| VaultRows.UpdateKeeps | internal/credentials/credentials.service.go:158-262 | A successful update keeps type, passphrase, public key and become clauses of the row invariant |
| VaultRows.UpdateUsable | internal/credentials/credentials.service.go:171-220 | Exactly when the row can be used after an update, in each of the three cases |
| VaultRows.AuthExactly | internal/credentials/credentials.service.go:60-97 | Login material is served if and only if the row is usable and its username not blank, with the error otherwise |
| VaultRows.SignerIsShownKey | internal/credentials/credentials.service.go:312-353 | The key offered at login is the public key the vault shows |
| VaultSecrets.CreatedServes | internal/credentials/credentials.service.go:60-156 | A created credential serves the secret it was created with: the password itself, or the key read from the given private key under the given passphrase, under the trimmed username |
| VaultSecrets.CreatedKeeps | internal/credentials/credentials.service.go:99-156 | Its row decrypts to the given secret and passphrase, and shows the public key of that key |
| VaultSecrets.CreatedFields | internal/credentials/credentials.service.go:99-156 | Its texts are those of the request, trimmed; the become secret reads back as the one sent; sudo stays sudo, and the user is the one given or root |
| VaultSecrets.CreateFails | internal/credentials/credentials.service.go:99-156 | Which cause each error of a failing create stands for |
| VaultSecrets.UpdatedServes | internal/credentials/credentials.service.go:158-262 | After an update that carries a new secret, login serves that secret, read under the passphrase in force |
| VaultSecrets.UpdatedKeeps | internal/credentials/credentials.service.go:171-220 | The row keeps the new secret; without a new one the secret read back is the one from before |
| VaultSecrets.UpdatedNames | internal/credentials/credentials.service.go:158-170 | Name and username become the new ones, trimmed, unless those are blank |
| VaultSecrets.UpdatedBecome | internal/credentials/credentials.service.go:222-254 | The become fields after an update, given, blank or absent in the request |
| VaultSecrets.UpdateSucceeds | internal/credentials/credentials.service.go:158-262 | Exactly the updates that succeed on a row in order |
| VaultRuns.RunKeepsRows | internal/credentials/credentials.service.go:99-262 | Over every run with overlapping updates and deletions, every stored row and every pending copy keeps the row invariant |
| VaultRuns.StepKeepsUsable | internal/credentials/credentials.service.go:171-220 | A step keeps every row and pending copy usable if and only if it is not a successful update that clears the passphrase of a key that needs it |
| VaultRuns.UsableUnlessLockedOut | internal/credentials/credentials.service.go:171-220 | Over every run, every row and pending copy is always usable if and only if no step was such an update |
| VaultRuns.LoginFailsOnlyOnBlankName | internal/credentials/credentials.service.go:60-97 | In such a run login fails on a blank username and nothing else |
| VaultRuns.ClearingLocksOut | internal/credentials/credentials.service.go:211-213 | For any key that needs its passphrase, clearing it succeeds and makes login fail |
| Hosts.ProbeAddress | internal/inventory/probe_address.go:18-30 | The loop finds the first usable target; there is one exactly if the address is not blank or some reported IP can be probed |
| Hosts.HasProbeTarget | internal/inventory/probe_address.go:43-45 | Tells whether there is one |
| Hosts.HostTable.GetByFingerprint | internal/inventory/repositories/host.repository.go:44-53 | Finds the row with the fingerprint if there is one |
| Hosts.HostTable.Create | internal/inventory/repositories/host.repository.go:55-57 | Inserts unless id or fingerprint is taken |
| Hosts.HostTable.Update | internal/inventory/repositories/host.repository.go:59-62 | Writes the whole row; no effect if it is gone |
| Hosts.HostTable.ClearAllAgentOnline | internal/inventory/repositories/host.repository.go:75-79 | The same rows remain, none of them connected, and every other field is as it was |
| Hosts.HostTable.ListAgentOffline | internal/inventory/repositories/host.repository.go:81-87 | Lists exactly the rows not connected, each once |
| Hosts.HostTable.ApplyProbeResult | internal/inventory/repositories/host.repository.go:89-95 | Changes the row only if it is not connected |
| Hosts.Service.MarkAllAgentsOffline | internal/inventory/hosts.service.go:42-66 | The clear and the loop over listed copies make every row unconnected, and offline unless it was online and can be probed |
| Hosts.Service.BootRow | internal/inventory/hosts.service.go:51-64 | One round of that loop, from the listed copy of the row |
| Hosts.Service.UpsertFromAgent | internal/inventory/hosts.service.go:68-124 | Creates or refreshes exactly the row of the fingerprint, connected and online |
| Hosts.Service.Heartbeat | internal/inventory/hosts.service.go:126-154 | Refreshes it, or reports it unknown and changes nothing |
| Hosts.Service.MarkAgentOffline | internal/inventory/hosts.service.go:157-173 | The row becomes unconnected, and stays online if and only if it was and its address is not blank or some reported IP can be probed |
| Hosts.Service.Create | internal/inventory/hosts.service.go:222-266 | Adds an unconnected row or fails with the specified error and changes nothing |
| Hosts.Service.Update | internal/inventory/hosts.service.go:268-334 | Edits the optional fields of one row, or fails and changes nothing |
| Hosts.Service.ListProbeTargets | internal/inventory/hosts.service.go:340-352 | Exactly the unconnected rows with a target, each once |
| Hosts.ProbeLoop.Tick | internal/inventory/probe.go:68-84 | One round applies the answers to the listed targets, up to its cancellation, and changes no other row |
| HostRuns.NormalizedProbe | internal/inventory/hosts.service.go:378-394 | Accepts exactly blank, icmp and tcp in any case, and ports 1 to 65535 |
| HostRuns.EditedOk | internal/inventory/hosts.service.go:268-334 | An edit keeps the row in order and does not touch presence, reachability or fingerprint of its copy |
| HostRuns.StepKeepsInv | internal/inventory/repositories/host.repository.go:44-95 | Every read, write, probe result, addition and deletion keeps rows and pending copies in order and fingerprints unique |
| HostRuns.BootEstablishes | internal/inventory/hosts.service.go:42-66 | The boot call, run alone on a table with unique fingerprints and valid probe settings, establishes the invariant |
| HostRuns.RunKeepsHosts | internal/inventory/hosts.service.go:68-334 | It holds in every interleaving of stale whole-row writes with atomic probe results |
| HostRuns.RestartHolds | internal/inventory/hub.go:72-75 | Whatever state the process dies in, the next boot re-establishes it |
| HostRuns.ConnectedIsOnline | internal/inventory/probe.go:68-84 | In every such run a connected host is online and no probe result changes its row |
| HostRuns.PresenceEndsOnlyBy | internal/inventory/hosts.service.go:157-173 | A connected host stops being shown so only by deletion, a departure, an edit that read it unconnected, or the boot call |
| HostRuns.RunInOrder | internal/inventory/hosts.service.go:42-66 | Over every run from the boot, all rows and pending copies are always in order if and only if no boot read sees a connected host without a probe target |
| HostRuns.RowsStep | internal/inventory/repositories/host.repository.go:44-95 | A step keeps connected hosts online if and only if it is not the boot call's write of a connected copy |
| HostRuns.OnlineExactly | internal/inventory/hosts.service.go:68-334 | Over every run from the boot, connected hosts are always shown online if and only if the boot call never writes a connected copy |
| HostRuns.BootSeesAgentBreaks | internal/inventory/hub.go:72-90 | Why the boot call runs before the listener opens: from any table, an Agent that nothing can probe, connecting between the clear and the listing, is left connected and offline |
| HostRuns.PresenceBeginsOnlyBy | internal/inventory/hosts.service.go:68-154 | A host comes to be shown connected only by the write of a connected copy of its row, of a new host or by Agent, edit or boot call, never by a departure |
| HostRuns.NoNewCopies | internal/inventory/hosts.service.go:268-334 | While it is not, no call but its Agent's comes to hold a connected copy |
| HostRuns.DepartedStays | internal/inventory/hosts.service.go:157-173 | Not connected and no connected copy held: no step but a read by its Agent changes either |
| HostRuns.AwayExactly | internal/inventory/hosts.service.go:68-334 | Over every run, an unconnected host whose Agent does not come back stays so if and only if no call writes a connected copy that it held from the start |
| HostRuns.DepartureLasts | internal/inventory/hosts.service.go:157-173 | The same from the moment a departure is written; with no connected copy held then, the departure lasts |
| HostRuns.StaleEditRevivesPresence | internal/inventory/hosts.service.go:268-334 | Such a copy does occur: any successful edit read before and written after a departure shows the host connected again |
| HostRuns.DepartureShown | internal/inventory/hosts.service.go:157-173 | Over every run: a departure that read a row and writes it later leaves the host unconnected, and online if and only if the row it read was online and can be probed |
| HostFields.TargetIsFirst | internal/inventory/probe_address.go:18-30 | A host is probed at its address, or at the first reported address that can be |
| HostFields.GoneMeans | internal/inventory/hosts.service.go:157-173 | A departed host is unconnected, and online if and only if it was online and its address is not blank or some reported IP can be probed; only the times change besides |
| HostFields.BootedMeans | internal/inventory/hosts.service.go:42-66 | The same at the boot, where an unchanged row keeps its time |
| HostFields.ProbedMeans | internal/inventory/repositories/host.repository.go:89-95 | After a probe an unconnected host is online if and only if it answered; a connected one is untouched |
| HostFields.SeenMeans | internal/inventory/hosts.service.go:126-154 | A heartbeat shows the host connected and online, and each field it reports replaces the one before, if it says anything |
| HostFields.MetAgainMeans | internal/inventory/hosts.service.go:68-124 | A returning Agent does so too, and leaves its subject and address |
| HostFields.MetMeans | internal/inventory/hosts.service.go:68-124 | A new Agent gets a row with what it reports |
| HostFields.EditedMeans | internal/inventory/hosts.service.go:268-334 | Each text of an edit lands, trimmed, in its own field, and fields not given are kept |
| HostFields.EditedSettings | internal/inventory/hosts.service.go:268-334 | So do the credential and the probe settings |
| HostFields.EditFails | internal/inventory/hosts.service.go:268-334 | Exactly which edits succeed, and which cause each error stands for |
| HostFields.AddedMeans | internal/inventory/hosts.service.go:222-266 | A host added by hand is unconnected and offline, with the texts of the request trimmed |
| HostFields.AddFails | internal/inventory/hosts.service.go:222-266 | Exactly which hosts can be added, and which cause each error stands for |
| Refresh.RunKeepsFlights | web/src/lib/oidc.ts:273-323 | In every interleaving the variable names the only refresh under way, and every waiting call waits for one that exists |
| RefreshRuns.OneRefreshAtATime | web/src/lib/oidc.ts:279-287 | At most one refresh is under way, each posts at most once, and an API call sends at most two requests |
| RefreshRuns.JoinersShare | web/src/lib/oidc.ts:279-287 | A call that needs a refresh during one starts none and waits for it; all who wait are told the same |
| RefreshRuns.RunKeepsTokens | web/src/lib/oidc.ts:289-323 | With rotation, no closed refresh token is in the session or on its way |
| RefreshRuns.ClosedTokenNeverPosted | web/src/lib/oidc.ts:289-323 | With rotation, a token whose exchange was stored or refused is never posted again |
| RefreshRuns.StepHolds | web/src/lib/oidc.ts:289-323 | A step leaves the page holding only tokens that can be posted if and only if it does not store a closed one |
| RefreshRuns.ParsedHolds | web/src/lib/oidc.ts:315-321 | A stored answer leaves a token that can be posted exactly if it carries one, other than the one posted and not closed |
| RefreshRuns.RunHolds | web/src/lib/oidc.ts:289-323 | Over a whole run, what the page holds can always be posted if and only if no step stored a closed token |
| RefreshRuns.StoredWellNeverReposted | web/src/lib/oidc.ts:289-323 | With any provider: while no step stores a closed token, none is posted |
| RefreshRuns.StoredClosedIsPosted | web/src/lib/oidc.ts:279-299 | After any step that stores a closed token, an answer or a login, some continuation that stores nothing posts it |
| RefreshRuns.OmittedTokenComesBack | web/src/lib/oidc.ts:316-321 | A run from the start of the page in which a provider omits the new token and the page posts the same token twice, the second time closed |
| RefreshRuns.SignedOutStays | web/src/lib/oidc.ts:351-353 | Signed out with no refresh under way, the page stays so and posts nothing until the next login |
| RefreshRuns.ComesBackExactly | web/src/lib/oidc.ts:289-323 | A page without a session can have one again without a login if and only if a refresh is under way, looking up the provider, waiting or reading |
| RefreshRuns.LogoutUndone | web/src/lib/oidc.ts:351-353 | So signing out is final if and only if no refresh was under way |
| RefreshTokens.EveryStateHasCause | web/src/lib/api.ts:187-220 | In every run each state of a call has a cause: a request carries the access token that the session had at the send, or that of the refresh it waited for; a call starts over only after an unauthorized first answer and a refresh that succeeded, and gives up only for a reason of the source |
| RefreshTokens.PastHolds | web/src/lib/oidc.ts:289-323 | In every run a refresh posts the refresh token of the session it started in; it ends renewed, expired or broken exactly along the branches of the source, with the steps that led there |
| RefreshTokens.PostsOwnToken | web/src/lib/oidc.ts:289-305 | Nothing else is ever posted |
| RefreshTokens.RenewedWasStored | web/src/lib/oidc.ts:315-323 | A renewed token pair has the access token of the answer, and its refresh token or else the one posted; the session was set to it |
| RefreshLosses.SessionEndsOnlyBy | web/src/lib/api.ts:187-220 | A session ends exactly by signing out, a refused refresh, a call that gives up, or one that has nothing to refresh with, and changes otherwise only by a login or a refresh that was read |
| RefreshLosses.CallerLoses | web/src/lib/api.ts:187-220 | Any call that has not ended, unless it waits for a refresh that failed without a verdict, can come to clear the session |
| RefreshLosses.LosesExactly | web/src/lib/api.ts:187-220 | Over runs without signing out and without new calls, what is under way can end the session if and only if a refresh can still be refused or such a call is left |
| RefreshLosses.LoginLostExactly | web/src/lib/api.ts:189-217 | So a login in any run can be undone by what began before it if and only if the page was not calm |

## Left out

- ShellSession: terminal sizes, error texts and time stamps of the messages; only their kinds and the bytes of output and input.
- ShellSession: both ends are steps on values rather than objects, because goroutines interleave inside methods; the classes of HubRegistry and AgentManager have the methods.
- Hub.OpenShell: waits on a channel, so it exists only as steps of ShellSession and as a lock routine of LockOrder.
- ShellProgress.NeverStuck: a delivery to an open pipe is taken to be possible; a Portal that neither reads its terminal's output nor closes it would hold the read loop.
- LockOrder: a write on the network is taken to end; a peer that never reads would hold the connection mutex.
- AgentManager.ShellManager.Open: the Agent's choice of shell program and the window size; `resize` changes only the size.
- HubRegistry.AgentConn.WriteClose: messages other than `shell_close` do not appear in the outbox.
- ScanPool: what a probe measures (round trip, ports, name) is one arbitrary number; a probe that the deadline interrupts may miss a live host.
- Cidr.ValidateScanCIDR: the text of the CIDR is parsed by `net/netip`, which is not part of this model.
- Credentials: AES-GCM, key parsing and key generation; time stamps, listing and the response without secrets.
- Credentials: failing reads of the database; a failing write is modelled.
- Hosts: the JSON text of the address list, `CPUCores`, `MemoryBytes`, `CreatedAt`, the parsing of IP addresses, responses and sorting for display.
- TrimText.LowerChar: characters outside ASCII whose lower case is outside ASCII stay as they are; no probe method contains one.
- HostRuns: that a row is connected exactly while the hub knows its Agent; a replaced connection marks its successor's row offline.
- HostRuns: that every online host can be probed; an edit may blank its address.
- RefreshRuns.ClosedTokenNeverPosted: says nothing of a token whose response was lost or unreadable; the page may post that one again.
- Refresh: an accepted answer without an access token, which makes the page keep the old one; a lifetime of the tokens.
- Refresh: a second tab or a reload, which lose the variable `refreshInFlight`; the login callback is one step.
- Refresh: `refreshInFlight` and the session are fields of a value that steps replace, because calls interleave at every await.
- Base64.UrlRoundTrip: of `readJwtExpMs` only the decoding; splitting the token at its dots and reading the JSON are left out, and whether a token is near expiry is arbitrary in Refresh.
- Tickets: identifiers are text; hexadecimal coding and the 24 random bytes are left out.
- Sha256.Sha256Pure: the digest of messages of 2^29 bytes or more, where the buffer is shown to differ from the standard padding.
- Everything in `internal/pki`, token validation, routing, migrations, React components, discovery of local networks, the SSH bridge: library calls or single branches.
