# WSL Zero Trust: a verified model

WSL Zero Trust is a WireGuard access product: a control plane hands out
sessions and addresses, gateways reconcile an interface and a firewall with what
it says, and an agent on each device answers private names, writes tunnel
configuration and runs privileged commands. This project models the parts where
a mistake would matter most and proves what they promise, for every input, every
run and every interleaving.

Run `dafny verify dfyconfig.toml` with Dafny 4.11.

| file | models |
|---|---|
| `Fence.dfy` | session creation and revocation statement by statement, interleaved with a gateway's heartbeat loop: the steps, the invariant, and that the control plane keeps it |
| `FenceGateway.dfy`, `FenceRuns.dfy` | that the gateway's steps keep it, and what it says of whole runs |
| `FenceCut.dfy` | a run that shows the limit: a key left by a cut apply |
| `FenceLeak.dfy` | when a revocation gives an address back, and when not |
| `Race.dfy` | session creation and deactivation of users and devices, statement by statement |
| `Access.dfy` | `Race` and `Fence` as one machine: deactivation as far as the interface |
| `Tables.dfy`, `ControlPlane.dfy` | the tables, their single statements, and the operations of the session, user, device, address and gateway services |
| `Reconcile.dfy`, `Dump.dfy`, `Cidr.dfy` | the gateway's plan, its execution, the interface listing, and address blocks |
| `RateLimit.dfy` | the fixed-window limiter with its sweep |
| `Wire.dfy`, `Hosts.dfy`, `Resolver.dfy`, `Server.dfy` | the local resolver: DNS messages (sections 4.1.1 to 4.1.4 of RFC 1035), the override table, `/etc/resolver`, and the dispatcher |
| `Tunnel.dfy` | privileged command lines, quoted for the shell and for AppleScript |
| `Firewall.dfy` | the nftables policy, compiled, written and read back |
| `Profile.dfy` | WireGuard configuration text: what is accepted and what is written |
| `Identity.dfy` | sign-ins and provisioning over users and identity bindings |
| `Text.dfy`, `Ordering.dfy` | string and sorting operations of the standard library the source uses |

Code that changes things step by step is a class or a method with loops
(`ControlPlane.Service`, `Reconcile.WireGuard`, `Hosts.Overrides`, ...), each
proved against a specification function; the properties are lemmas about those
functions. Steps that the database may interleave are the transitions of
`Fence` and `Race`, which `Access` runs as one.

## How to read the main results

- **Version fence.** `Fence` takes each SQL statement of `create`, `revoke` and
  `config`, each command to the interface, and each loss as one step, with a clock
  that may advance at any point. An allowed address has one owner, so setting it on
  one peer takes it from another, as the kernel does. Expiry neither bumps the version
  nor frees an address, so the result allows for peers that ran out after they were
  selected. It is stated on keys: one device may hold several live sessions under one
  key. `SiteExists`, `RunExists` and `CatchesUp` show that its hypotheses are met.
- **What a cut apply leaves.** An apply that ends after a `wg set` took the last
  address of a revoked key and before that key's removal leaves the key on the
  interface, without addresses and so without traffic; an empty list is not managed,
  so no later plan removes it. `cut` in `Fence.State` is the history of exactly these
  keys, `FenceRuns.VersionFence` says that no other revoked key stays, and
  `FenceCut.RevokedKeyMayStay` is a run where one does.
- **Hypotheses of the fence**, gathered in `Fence.Site.Valid`, `Fence.Init` and the
  steps: the gateway manages its interface and does not hold a private key for an
  adopted one, its managed range covers its network's CIDR, the interface can be
  listed, nobody but this gateway changes it and it outlives a restart (of the
  gateway's process, not of its host), control plane and gateway read one clock, no
  gateway is deleted or enrolls again under another network, and no operation of the
  control plane stops half-way. Which texts `wg` takes for a key is a parameter,
  `isKey`.
- **Where a promise fails, the condition is exact.** Convergence holds exactly for
  consistent peers (`Reconcile.ConvergesExactly`); a gateway left to itself and
  the clock is current at a time exactly when the rows whose keys `wg` refuses have run
  out by then (`FenceRuns.ReachesCurrentExactly`); a revoked session keeps an address
  exactly when its revocation overtook its creation (`FenceLeak.RevokedHoldsExactly`);
  a session outlives its owner's access exactly when its creation straddles a
  deactivation (`Race.OutlivesExactly`), and only then is anything of the owner left on
  a current interface (`Access.DeactivationReachesWire`); an answer is whole exactly below 65,536 addresses
  (`Wire.AnswerReadsBack`); a name survives a query exactly when it is writable
  (`Wire.QueryRoundTrip`); a script is taken exactly when everything in it is IPv4 and
  no comment is too long (`Firewall.ScriptReadsBack`).
- **`hide` statements** in proofs name definitions a step does not need.

## Where the code and its documentation differ

The model follows the code.

- `crates/wsl-gateway/src/firewall.rs:13-16` says traffic from outside the managed
  range returns. The rule that does it matches `ip saddr` in an `inet` table, so it
  matches IPv4 packets only: a forwarded IPv6 packet is never left alone and reaches
  the final `drop` unless it is tracked (`Firewall.ChainMeansPolicy`).
- `crates/wsl-control/src/middleware/rate_limit.rs:48-49` speaks of twice the rate
  across a boundary; one request fewer is the true maximum (`RateLimit.RateBound`,
  `RateLimit.RateBoundReached`).
- A failed allocation leaves its session active at 0.0.0.0
  (`ControlPlane.CreatedCases`, `ControlPlane.PlaceholderIsShared`), and an expired
  session keeps its address for good (`ControlPlane.ExpiredHoldsForGood`).
- `crates/wsl-gateway/src/apply.rs:110-112` calls removal what makes revocation real,
  and `crates/wsl-gateway/src/wg.rs:98-101` keeps a peer without allowed-ips from ever
  being removed. Together they let a cut apply leave a revoked key behind, cut off from its address but listed
  (`FenceCut.RevokedKeyMayStay`).
- `crates/wsl-control/src/services/devices.rs:105-107` takes any text of 40 bytes or
  more for a key. One that `wg set` refuses ends every apply of its gateway before
  the first removal (`FenceRuns.BadKeyBlocks`), so until its session runs out or ends
  no revocation reaches that gateway (`FenceRuns.ReachesCurrentExactly`).
- `crates/wsl-control/src/services/devices.rs:125-131` takes a revoked device back into
  use for any active user who presents its key (`ControlPlane.RevokedUntilReadmitted`).
- `crates/wsl-control/src/services/sessions.rs:307-335` frees the address of a session
  it revokes. Exactly when the session's creation is still under way and allocates
  afterwards (`FenceLeak.RevokedHoldsExactly`, `FenceLeak.RevokedHoldsAddress`), the
  address is held by a revoked session for good (`FenceLeak.StrandedForGood`); its peer
  row stays until it expires, never selected.
- `crates/wsl-control/src/services/users.rs:149-156` promises that deactivation reaches
  the data plane; a creation past its checks outlives it (`Race.OutlivesInDeed`).
- `crates/wsl-gateway/src/firewall.rs:107` keeps 63 characters of a service's name as
  `nft`'s limit on comments. The limit is 128 bytes, so a name of 43 characters with
  three bytes each is too long and the whole script is refused
  (`Firewall.LongNameRefused`).
- `UserService::create` on an email that exists does not apply the `active` it was
  given (`Identity.CreatedExactly`).

## Model

| member | source | states |
|---|---|---|
| `FenceRuns.VersionFence` | crates/wsl-control/src/services/sessions.rs:182-204 | in every interleaving of the single statements of session creation, revocation and `config` with heartbeats, the single commands of applies cut anywhere, and restarts, with an address moving to whichever peer it was last set on: whenever `last_version` equals the stored version, the key of every live session whose creation has finished is on the interface holding exactly the address of a session of that key; every key that has addresses, all of them managed, belongs to a session that is live, ran out after its peers were selected, or is being revoked right now; and a written key without such a session holds no address and is there if and only if an apply was cut on it |
| `FenceRuns.RevokedIsGone` | crates/wsl-control/src/services/sessions.rs:307-335 | once every session made with a key is revoked and none is still being revoked, a gateway at the current version that ever wrote the key routes nothing to it, and the key is off the interface if and only if no apply was cut on it |
| `FenceRuns.CutOnlyByCutting` | crates/wsl-gateway/src/apply.rs:86-128 | an apply is cut on a key only by ending after a `wg set` for another key and before the key's own command, while the key, written before, has no address left |
| `FenceCut.RevokedKeyMayStay` | crates/wsl-gateway/src/wg.rs:98-101 | for every site with an address to give and any two keys `wg` takes there is a run that ends at the current version with a key on the interface whose only session was revoked to the end |
| `FenceLeak.RevokedHoldsExactly` | crates/wsl-control/src/services/sessions.rs:307-335 | in every interleaved run a revoked session with nothing in flight about it holds an address if and only if its revocation overtook its creation: when the revocation freed what the session held, the creation had yet to allocate, and it found an address later |
| `FenceLeak.OrdinaryOrderFrees` | crates/wsl-control/src/services/sessions.rs:320-323 | when its creation is not waiting to allocate as the revocation frees what it held, the session holds no address at any later point of the run |
| `FenceLeak.FindsExactly` | crates/wsl-control/src/services/ipam.rs:16-58 | at statement level a creation's allocation finds an address if and only if its network has an eligible one nobody holds |
| `FenceLeak.RevokedHoldsAddress` | crates/wsl-control/src/services/sessions.rs:138-204 | the overtaking does happen: for every site with an address to give a run ends with nothing in flight and a revoked session that still has a peer row and holds an address |
| `FenceLeak.StrandedForGood` | crates/wsl-control/src/services/sessions.rs:307-335 | no step of any path, of the control plane or the gateway, ever frees the address of a revoked session nothing in flight is about |
| `FenceRuns.SoleSessionHoldsAddress` | crates/wsl-control/src/services/gateways.rs:265-300 | at the current version a key with one session behind it holds exactly that session's address |
| `FenceRuns.HeartbeatSucceeds` | crates/wsl-gateway/src/main.rs:78-157 | when `wg` takes every key the gateway would be sent, every heartbeat in which nothing fails and only the gateway moves, neither the clock nor the control plane, with any port but zero, is at the current version with the interface current or can go on, and every step it can go on with leaves less work |
| `FenceRuns.BadKeyBlocks` | crates/wsl-gateway/src/apply.rs:92-128 | while a configuration with a key `wg` refuses is applied, no removal of its plan has run, and it cannot finish |
| `FenceRuns.ReachesCurrentExactly` | crates/wsl-control/src/services/devices.rs:105-107 | left to itself between two heartbeats with the clock running, a gateway that is out of date can be at the current version at a given time if and only if every selected row whose key `wg` refuses has run out by then, 40 bytes being all that registration asks of a key |
| `FenceRuns.CurrentKeysTaken` | crates/wsl-control/src/services/devices.rs:105-107 | in every run, at the current version every live row whose creation is over has a key `wg` takes |
| `FenceRuns.CatchesUp` | crates/wsl-gateway/src/main.rs:78-157 | from any reachable state, once the selected rows with refused keys have run out, one quiet heartbeat makes the gateway current |
| `FenceRuns.SiteExists` | crates/wsl-gateway/src/config.rs:88-95 | every IPv4 network whose managed range is unset or covers its CIDR meets the fence's hypotheses |
| `FenceRuns.PathKeeps` | crates/wsl-control/src/services/gateways.rs:225-277 | one inductive invariant holds in every state of every path: the version a configuration carries was read no later than its peers, so equality of versions means the peers are not stale |
| `Fence.ControlFenced` | crates/wsl-control/src/services/sessions.rs:138-204 | every statement of a creation or revocation either bumps the gateway's version or leaves what a snapshot owes unchanged, up to operations still in flight |
| `FenceGateway.SelectionExclusive` | crates/wsl-control/src/services/gateways.rs:265-300 | no two peers of one configuration with different keys ask for the same address |
| `FenceGateway.ReconciledHolds` | crates/wsl-gateway/src/apply.rs:86-131 | an interface a plan has run on agrees with the desired peers on everything inside the managed range |
| `Reconcile.Plan` | crates/wsl-gateway/src/wg.rs:124-162 | the plan built by the loops is the specification's, list by list, in order |
| `Reconcile.PlanPartitions` | crates/wsl-gateway/src/wg.rs:124-162 | with repetition counted, each desired peer is in exactly one of add, update, unchanged, and each live key is desired or in exactly one of remove and foreign |
| `Reconcile.PlanReconciles` | crates/wsl-gateway/src/apply.rs:86-131 | on an interface where an address has one owner, after the commands of a plan desired keys are there and, if no two ask for the same block, hold what was asked; managed surplus is gone; and foreign peers keep everything but the blocks a set took |
| `Reconcile.ConvergesExactly` | crates/wsl-gateway/src/wg.rs:124-184 | a plan runs whole and planning again is a no-op if and only if every key is taken, the allowed-ips are readable network addresses, peers with one key agree, peers with different keys share no block, and no kept peer is left with managed blocks only |
| `Reconcile.IssuedConverge` | crates/wsl-gateway/src/wg.rs:167-184 | distinct good keys with distinct single addresses of the managed range converge |
| `Reconcile.IssuedIsRemovedExactly` | crates/wsl-gateway/src/wg.rs:98-118 | an undesired live peer holding one issued address is removed if and only if the managed range contains that address |
| `Reconcile.RemovalNotOverBroad` | crates/wsl-gateway/src/wg.rs:147-161 | a removed peer is undesired, has allowed-ips, and every address of every one of them lies in the managed range |
| `Reconcile.WireGuard.RunAll` | crates/wsl-gateway/src/apply.rs:86-131 | commands run in order up to the first that fails or is refused, and the interface is exactly what that prefix leaves |
| `Reconcile.WireGuard.Apply` | crates/wsl-gateway/src/apply.rs:14-131 | exactly when an apply succeeds, the set-up of the interface included, and what the interface then is; a failed one has run a prefix of the same commands |
| `Reconcile.Gateway.Receive` | crates/wsl-gateway/src/main.rs:121-152 | a version is remembered only when the whole of its configuration was applied; an equal version or an expired configuration changes nothing |
| `Dump.DumpReadsBack` | crates/wsl-gateway/src/wg.rs:70-92 | the listing of an interface reads back to each peer, in order, with exactly its allowed-ips |
| `Cidr.ContainsNetworkIsSubset` | crates/wsl-gateway/src/wg.rs:111-118 | `contains_network(outer, inner)` holds if and only if every address of inner lies in outer |
| `Cidr.BoundsContain` | crates/wsl-control/src/services/ipam.rs:31-44 | the addresses between a block's bounds are exactly the ones it contains |
| `Tables.FirstFreeIsFirst` | crates/wsl-control/src/services/ipam.rs:31-56 | the search returns the lowest eligible free address, or none only when every eligible one is held |
| `Tables.AllocateExactly` | crates/wsl-control/src/services/ipam.rs:16-58 | allocation hands out the lowest eligible address nobody holds and reports exhaustion exactly when there is none |
| `ControlPlane.Service.AllocateAddress` | crates/wsl-control/src/services/ipam.rs:16-58 | the search loop allocates what the specification says |
| `ControlPlane.Service.Create` | crates/wsl-control/src/services/sessions.rs:46-204 | the statements of a creation, in order, leave the specified tables; a creation that finds no address leaves its session active at the placeholder |
| `ControlPlane.RevokedExactly` | crates/wsl-control/src/services/sessions.rs:307-335 | a revocation does nothing to a session that is not active; otherwise that session alone is revoked, has no peer and holds no address, its gateway's version is one higher, nothing else changes, and a second revocation does nothing |
| `ControlPlane.RevokeUndoesCreate` | crates/wsl-control/src/services/sessions.rs:307-335 | revoking a session gives back what its creation took: address and peer tables are as before it, so the next creation may be given the same address |
| `ControlPlane.Service.RevokeEach` | crates/wsl-control/src/services/sessions.rs:337-359 | revoking one by one, in any order, is the revocation of the whole set, with one bump per session on its gateway |
| `ControlPlane.Service.UpdateUser` | crates/wsl-control/src/services/users.rs:121-156 | deactivating a user revokes every active session of the user |
| `ControlPlane.RegisteredExactly` | crates/wsl-control/src/services/devices.rs:100-144 | registration succeeds exactly for an active user with a key of 40 bytes or more; a taken key takes its one device back into use under the user it has, whoever presents it, a new one is the caller's new device, and nothing else changes |
| `ControlPlane.RunOnePerKey` | crates/wsl-control/src/services/devices.rs:122-135 | in every run no two devices have the same key |
| `ControlPlane.RevokedUntilReadmitted` | crates/wsl-control/src/services/devices.rs:122-200 | after any run a device whose owner was not deleted keeps owner and key, and is revoked if and only if its last revocation was followed by no registration of its key by an active user, any of them |
| `ControlPlane.Service.DeleteUser` | crates/wsl-control/src/services/users.rs:172-181 | the sessions are revoked one by one before the row goes, with its devices, sessions and peers, and the addresses left to no session |
| `ControlPlane.RunVersioned` | crates/wsl-control/src/services/gateways.rs:225-331 | over any run, user deletion included, two answers of `config` under one version name the same peers, but for those that ran out between them |
| `ControlPlane.Service.RevokeDevice` | crates/wsl-control/src/services/devices.rs:189-202 | revoking a device revokes every active session of the device |
| `ControlPlane.Service.Config` | crates/wsl-control/src/services/gateways.rs:241-331 | the version returned is the one read first; the peers are exactly the unexpired rows of active sessions of the gateway after its sweep |
| `ControlPlane.SweepKeepsSelected` | crates/wsl-control/src/services/gateways.rs:250-283 | on consistent tables the sweep takes away nothing that would be selected |
| `ControlPlane.RevokedMore` | crates/wsl-control/src/services/sessions.rs:337-359 | one more revocation after a set is the revocation of the larger set |
| `ControlPlane.CreatedCases` | crates/wsl-control/src/services/sessions.rs:138-204 | a creation either fails with every eligible address held and only its session row left, or gives an eligible free address of the network and completes every row |
| `ControlPlane.ReachableConsistent` | crates/wsl-control/src/services/ipam.rs:16-67 | after any run: allocations never share an address and belong to unrevoked sessions whose `assigned_ip` they are; each session past allocation holds its own; peers agree with sessions; no active session belongs to a deactivated user or revoked device |
| `ControlPlane.RunKeeps` | crates/wsl-control/src/services/users.rs:149-156 | every run of operations keeps the tables consistent |
| `ControlPlane.AddressHasOneIdentity` | crates/wsl-control/src/services/sessions.rs:267-305 | with disjoint networks at most one session answers `identity_by_ip` for any address but the placeholder, after any run |
| `ControlPlane.PlaceholderIsShared` | crates/wsl-control/src/services/sessions.rs:138-160 | the placeholder is the exception: two creations on one full network both stand behind 0.0.0.0 |
| `ControlPlane.EndedStaysEnded` | crates/wsl-control/src/services/sessions.rs:307-318 | a session once revoked or expired, or gone with its user, stays so through any run that does not draw its id again, and no later `config` selects it, at any time, for any gateway |
| `ControlPlane.ExpiredHoldsForGood` | crates/wsl-control/src/services/gateways.rs:250-264 | no run hands out again the address of an expired session, not even after its user is deleted |
| `Race.OutlivesExactly` | crates/wsl-control/src/services/users.rs:125-156 | in every interleaving of the single statements of creations, deactivations of users and devices, failures and new grants, once the deactivations of an owner are through, an active session of the owner is there without access if and only if its creation straddled one of them: checked before the mark, written after the selection |
| `Race.OutlivesInDeed` | crates/wsl-control/src/services/sessions.rs:337-347 | at any point with a creation past its checks, the mark, the selection and then the insert leave such a session |
| `Race.PastChecks` | crates/wsl-control/src/services/sessions.rs:52-68 | every user and device come to such a point |
| `Access.DeactivationReachesWire` | crates/wsl-control/src/services/users.rs:149-156 | over every run of checks, statements, gateway and interface together: once the deactivations of a user or device are through and the gateway is current, a key of that owner alone has addresses, all managed, if and only if a session made with it is selected whose creation straddled one of them; otherwise a key the gateway ever wrote holds nothing |
| `RateLimit.RateLimiter.CheckAt` | crates/wsl-control/src/middleware/rate_limit.rs:79-111 | one call changes the map and decides as specified; a map past the threshold holds only live windows; a disabled limiter allows and changes nothing |
| `RateLimit.SweepInvisible` | crates/wsl-control/src/middleware/rate_limit.rs:63-91 | on every run in time order the sweeping limiter decides exactly as one that never sweeps |
| `RateLimit.RateBound` | crates/wsl-control/src/middleware/rate_limit.rs:46-52 | over whole runs a half-open span of k windows holds fewer than (k + 1) budgets of allowed requests per client |
| `RateLimit.RateBoundReached` | crates/wsl-control/src/middleware/rate_limit.rs:46-52 | the bound is tight: a run with twice the budget less one in one window's length |
| `RateLimit.RetryAfterIsExact` | crates/wsl-control/src/middleware/rate_limit.rs:102-106 | a limited client's next request is allowed if and only if it waits at least `retry_after`, whatever other clients do |
| `Tunnel.AppleReadsBack` | crates/wsl-agent/src/tunnel.rs:198-200 | un-escaping the AppleScript literal gives back the text and stops at its closing quote |
| `Tunnel.ScanQuoted` | crates/wsl-agent/src/tunnel.rs:193-195 | a quoted argument is read by the shell as exactly its characters, in any context |
| `Tunnel.ScriptReadsBack` | crates/wsl-agent/src/tunnel.rs:222-228 | tokenised under sections 2.2.1, 2.2.2 and 2.3 of the POSIX.1-2017 Shell Command Language, the script is the PATH assignment and then each step's argv, as an AND-list |
| `Tunnel.ScriptStops` | crates/wsl-agent/src/tunnel.rs:357-366 | the commands run are the export and the steps up to and including the first failure |
| `Tunnel.PlanRunsTheSteps` | crates/wsl-agent/src/tunnel.rs:357-390 | each way of getting privilege launches its own program, and with its quoting undone the shell reads the same commands; without privilege there is only the hint |
| `Wire.ParseQuery` | crates/wsl-dns/src/wire.rs:54-108 | the cursor parser returns the specified question or error on every byte string, every read in bounds |
| `Wire.LabelsAt` | crates/wsl-dns/src/wire.rs:73-95 | the label loop reads the name and where it ends, refusing pointers, overruns and names past 255 bytes |
| `Wire.CutQuery` | crates/wsl-dns/src/wire.rs:54-108 | an accepted query cut anywhere from byte 12 to its question's end is FORMERR under the same id; cut later it is the same query |
| `Wire.PaddedQuery` | crates/wsl-dns/src/wire.rs:96-107 | trailing bytes change nothing |
| `Wire.Answer` | crates/wsl-dns/src/wire.rs:113-147 | the bytes of the answer, record by record |
| `Wire.AnswerReadsBack` | crates/wsl-dns/src/wire.rs:113-147 | for every accepted datagram the answer reads back as NOERROR, authoritative, under its id, with the matching addresses in order; the list is whole exactly when it has fewer than 65,536 |
| `Wire.ErrorsReadBack` | crates/wsl-dns/src/wire.rs:151-164 | error replies read back with the query's id, the code given, and no address |
| `Wire.ParseResponse` | crates/wsl-dns/src/wire.rs:212-243 | the response parser returns what the specification says on every byte string, every read in bounds |
| `Wire.SkipNameAt` | crates/wsl-dns/src/wire.rs:245-257 | names are skipped over labels, roots and compression pointers as specified |
| `Wire.BuildQuery` | crates/wsl-dns/src/wire.rs:182-200 | the bytes of a query, label by label, each cut at 63 bytes |
| `Wire.BuiltParses` | crates/wsl-dns/src/wire.rs:182-200 | a built query parses with its id, type and labels while they fit in 255 bytes and is FORMERR otherwise |
| `Wire.QueryRoundTrip` | crates/wsl-dns/src/wire.rs:182-200 | an ASCII name comes back if and only if its labels have 1 to 63 bytes and the whole fits |
| `Hosts.NormaliseTwice` | crates/wsl-dns/src/hosts.rs:213-247 | normalising is idempotent, and a normalised name is non-empty without blanks or `#` |
| `Hosts.Overrides.Parse` | crates/wsl-dns/src/hosts.rs:79-110 | the line loop builds the specified table or names the first bad line |
| `Hosts.Overrides.Find` | crates/wsl-dns/src/hosts.rs:125-140 | the walk up the suffixes returns the specified entry |
| `Hosts.Overrides.Set` | crates/wsl-dns/src/hosts.rs:188-194 | setting replaces the entry of the name, or changes nothing when the name is refused |
| `Hosts.Overrides.Remove` | crates/wsl-dns/src/hosts.rs:196-206 | removing forgets the name and says whether the table changed |
| `Hosts.ReachedWellFormed` | crates/wsl-dns/src/hosts.rs:79-121 | every table reachable by parsing, setting and removing has normal names and non-empty lists without duplicates |
| `Hosts.RenderReadsBack` | crates/wsl-dns/src/hosts.rs:147-186 | a well-formed table reads back from its text, address order included |
| `Hosts.TableRoundTrip` | crates/wsl-dns/src/hosts.rs:177-211 | `parse(render(t)) == t` for every reachable table |
| `Hosts.LookupIsSpecification` | crates/wsl-dns/src/hosts.rs:125-140 | lookup is the exact entry, else that of the longest wildcard suffix among all keys, else nothing |
| `Hosts.RoutingCoversLookup` | crates/wsl-dns/src/hosts.rs:164-174 | every name the table answers equals a routed domain or lies under one |
| `Hosts.RoutedDomainsNormal` | crates/wsl-dns/src/hosts.rs:164-174 | routed domains of a well-formed table are normal names and no wildcards |
| `Resolver.Directory.Sync` | crates/wsl-dns/src/resolver.rs:45-89 | the loops leave exactly the specified directory and report, or nothing at all when a name is refused |
| `Resolver.SyncRoutesWanted` | crates/wsl-dns/src/resolver.rs:45-111 | afterwards the routed domains are the wanted ones minus the skipped, sorted; of the unmarked files exactly those that a wanted domain names and that are no text are overwritten |
| `Resolver.SyncAgain` | crates/wsl-dns/src/resolver.rs:45-89 | repeating a sync writes and removes nothing |
| `Resolver.SyncOfTable` | crates/wsl-dns/src/resolver.rs:45-60 | on the routed domains of any reachable table the name checks never fail |
| `Server.ServesLastNoticed` | crates/wsl-dns/src/server.rs:297-313 | however often the hosts file changes, breaks and is mended, the table served is that of the last version that loads among those whose time was new |
| `Server.ServesLastLoaded` | crates/wsl-dns/src/server.rs:284-295 | when an edit always changes the file's time, it is the last version that loads |
| `Server.Resolver.Handle` | crates/wsl-dns/src/server.rs:204-240 | one query in, the specified reply out, with the table refreshed first, and only for real queries |
| `Server.OverriddenAnsweredFromTable` | crates/wsl-dns/src/server.rs:204-225 | an overridden name but the probe is answered only from the table, whatever the upstreams say |
| `Server.MatchingIsFamily` | crates/wsl-dns/src/wire.rs:113-124 | the records of an answer are exactly the addresses of the asked family and class |
| `Server.OthersForwarded` | crates/wsl-dns/src/server.rs:226-240 | any other name gets the first upstream's reply unchanged, or SERVFAIL under its id when none replies |
| `Firewall.Render` | crates/wsl-gateway/src/firewall.rs:33-93 | the appending loops write exactly the script of the compiled chain; without a range there is none |
| `Firewall.EscapeKeeps` | crates/wsl-gateway/src/firewall.rs:97-109 | the comment is the first 63 of the name's characters that are no control characters, quotes and backslashes as underscores; a name of at most 63 characters with none of these is its own comment |
| `Firewall.AsciiNameTaken` | crates/wsl-gateway/src/firewall.rs:100-109 | the comment of an ASCII name is within the 128 bytes `nft` takes |
| `Firewall.LongNameRefused` | crates/wsl-gateway/src/firewall.rs:100-109 | one service with a name of 43 to 63 euro signs, three bytes each, makes `nft` refuse the whole script, every other rule with it |
| `Firewall.ChainMeansPolicy` | crates/wsl-gateway/src/firewall.rs:50-88 | first-match evaluation: IPv4 traffic from outside the range falls through; what does not is accepted exactly when it is tracked or a service or route grants it, else dropped |
| `Firewall.ScriptReadsBack` | crates/wsl-gateway/src/firewall.rs:33-109 | the text reads back to the compiled chain, and is taken if and only if the range, every service with a port and every route is IPv4 and the comment of every such service has at most 128 bytes |
| `Profile.Validate` | crates/wsl-agent/src/profile.rs:115-263 | the line loop accepts or refuses as specified, with the line of the first fault |
| `Profile.HooksRefused` | crates/wsl-agent/src/profile.rs:175-189 | no line of an accepted text sets a hook, in any letter case, however padded, with or without a value |
| `Profile.AcceptedIsSound` | crates/wsl-agent/src/profile.rs:205-262 | an accepted profile's allowed addresses are the concatenation over its peers, each of which has a key that decodes; address and endpoint are there |
| `Profile.ListReads` | crates/wsl-agent/src/profile.rs:83-89 | a list written with commas reads back item for item |
| `Profile.SessionReadsBack` | crates/wsl-agent/src/state.rs:278-300 | the text written for a session passes the checks and reads back to the same address, DNS list, endpoint, allowed addresses and keepalive, with one peer |
| `Identity.Service.SignInOidc` | crates/wsl-control/src/auth/oidc.rs:471-597 | the transaction leaves the specified tables and result, and a refusal rolls back |
| `Identity.Service.SignInOps` | crates/wsl-control/src/auth/opsapi.rs:202-296 | the same for an OpsAPI login |
| `Identity.CreatedExactly` | crates/wsl-control/src/services/users.rs:71-119 | `create` is refused if and only if the email or the external id is someone else's; otherwise the user returned has both, and every row there was keeps its email and whether it is active |
| `Identity.CreatedAgain` | crates/wsl-control/src/services/users.rs:71-119 | a retried request with an external id finds the same user and changes nothing |
| `Identity.DevSignInExactly` | crates/wsl-control/src/auth/oidc.rs:630-653 | the development login fails if and only if the email is an inactive user's, changes no row there is, and returns the one active user of that email, known or new |
| `Identity.BindingsAreOneToOne` | migrations/006_oidc_identity_binding.sql:16-36 | in every run each user has at most one subject of an issuer, and an OpsAPI subject is its user's external id |
| `Identity.RunKeeps` | crates/wsl-control/src/auth/oidc.rs:471-597 | both sign-ins, provisioning, updates and deletions keep the tables consistent over every run |
| `Identity.BindingIsForLife` | crates/wsl-control/src/auth/oidc.rs:494-528 | a subject once bound stays on its user for as long as the user exists, whatever emails it later presents |
| `Identity.InactiveStaysOut` | crates/wsl-control/src/auth/oidc.rs:582-596 | from deactivation until an administrator's reactivation no way of signing in returns the user or makes it active |
| `Identity.OidcNeverMerges` | crates/wsl-control/src/auth/oidc.rs:529-556 | a bound token signs in its own user or nobody; an unbound one never a user who already has a subject of the issuer; a refusal changes nothing |
| `Identity.OidcSignInExactly` | crates/wsl-control/src/auth/oidc.rs:471-597 | an OIDC sign-in returns a user if and only if the token is admitted and the user is the one bound to it, active, with the email free; or the active user of the email, without a subject of the issuer, for an unbound token; or a newcomer, who may come in, for an email nobody has |
| `Identity.OpsSignInExactly` | crates/wsl-control/src/auth/opsapi.rs:202-296 | an OpsAPI login succeeds if and only if the user with its id as external id is active, or nobody has the id or the email and newcomers may come in |

## Left out

- FenceRuns.VersionFence: does not cover deleting a user (in `ControlPlane.RunVersioned`, one operation at a time), nor deleting a gateway or moving it to another network, nor a control-plane operation that stops half-way, nor a gateway that cannot list its interface.
- FenceRuns.HeartbeatSucceeds: about heartbeats in which the listing and every command `wg` takes succeed and only the gateway moves; the other results let commands fail and anything come between.
- ControlPlane.ReachableConsistent: each operation is one step; interleaved statements do break it, exactly as `FenceLeak.RevokedHoldsExactly` and `Race.OutlivesExactly` say, and what they keep is the invariant of `Fence`.
- ControlPlane.RunKeeps: each operation is one step, as above.
- ControlPlane.EndedStaysEnded: session ids are random, and the one in question is not drawn again.
- Race.OutlivesExactly: users' and devices' rows are not deleted; addresses, peers and the interface come in with `Access`.
- Access.DeactivationReachesWire: about keys all of whose sessions are the owner's, with none in flight and none that ran out since the applied peers were selected.
- ControlPlane.AddressHasOneIdentity: networks are IPv4, as allocation writes prefix 32; the address search is one step, as races inside it end at a database constraint.
- ControlPlane.Service.Create: which gateway the heartbeat order picks and what the policy decides are parameters.
- Reconcile.WireGuard.Apply: whether the interface can be listed, set up, and which commands fail are parameters; the firewall step returns nothing and cannot fail an apply.
- Firewall.ChainMeansPolicy: `nft` itself is modelled by the reader and first-match evaluation of the statements the script uses, no more.
- Firewall.ScriptReadsBack: reads a table script of the written shape; the rest of the nft language is not part of this model.
- Hosts.TableRoundTrip: the text forms of IP addresses, like those of address blocks in `Firewall`, are parameters that must print without blanks or `#` and read back.
- Profile.SessionReadsBack: whether text is a key, and the public key of a private one, are parameters.
- Resolver.Directory.Sync: every entry is a file of text or of bytes that are no text; sub-directories, links and errors of the file system are not modelled.
- Server.Resolver.Handle: upstream replies and the hosts file's time and content are parameters; UDP and TCP framing are left out.
- Identity.RunKeeps: assumes no OIDC issuer equals the issuer OpsAPI logins use; roles, display names and the last-seen email of a binding carry no property.
- Policy evaluation, posture, the audit chain, groups, routes and services as stored: they would add only single-branch members.
- A route or service edit does not bump a version, so nothing is said about when a firewall is refreshed.
- The library of imported profiles, `conf_addresses`, `WgQuick::path` and `up_with_hint`: file and process plumbing around the text that is modelled.
- PowerShell quoting, cryptography, HTTP, launch agents, the CLI and the user interfaces.
