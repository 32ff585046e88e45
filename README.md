# A replicated commit log: membership, command path, agent lifecycle and segments

This project models in Dafny the sequential core of a distributed commit log
written in Go. It covers four pieces:

- **The replicator's membership bookkeeping** (`internal/log/replicators.go`).
  A `Replicator` keeps a map from peer name to that peer's private leave
  signal, a `closed` flag, and one global close signal. `Join` starts a
  replication loop for a new peer. `Leave` signals that peer's loop and
  forgets the peer. `Close` stops everything. `init` lazily fills nil
  fields. A Go channel that is only ever closed is modelled by the class
  `Channels.Signal`. Its `Close` requires the signal to be open, so "no
  channel is closed twice" is proved at every call site.
- **The replicated log's command path and set-up decisions**
  (`internal/log/distributed.go`). This part covers:
  - the `[type byte][marshalled request]` envelope and its inverse;
  - how a decided consensus future is classified;
  - `Append` and `Read`;
  - the log store's configuration copy and the consensus timeouts;
  - the bootstrap decision;
  - the order of the external steps in `NewDistributedLog`, `setupLog`
    and `setupRaft`.
- **The agent's lifecycle** (`internal/agent/agent.go`). This part covers
  `Config.RPCAddr`, the ordered setup of `New`, and the run-once, ordered
  teardown of `Shutdown`. Both loops are one generic step runner
  (`Steps.Run` and `Steps.RunInOrder`): run fallible steps in order and
  stop at the first that does not return nil. `New` is given which
  fields each setup step fills in, so the agent is modelled both as
  written (`Agents.AssignsAsWritten`: the replicator is never stored, and
  shutdown panics at it) and as corrected (`Agents.Assigns`); see
  Findings.
- **A log segment as its test exercises it**
  (`log_package/internal/log/segment_test.go`). This covers:
  - offsets numbered from a base;
  - reading back a value after it is appended;
  - an index with a byte cap that refuses the next entry with `io.EOF`;
  - the "maxed" rule over the store and the index.

Everything outside these pieces is a parameter. This includes:

- what consensus decides for each proposed command;
- marshalling;
- the application log's `Read`;
- whether a directory, store or collaborator call fails;
- the library's default consensus configuration;
- the width of one index entry and the store bytes one record takes.

A Go panic is the status value `Steps.Panicked`, and a Go nil map is
`Option.None`.

Files:

| file | contents |
|---|---|
| `wrappers.dfy` | `Option`, `Result`, and the error values `EOF` and `Failure` |
| `api.dfy` | bytes, `Record` and `ProduceRequest` |
| `channels.dfy` | close-only channel |
| `steps.dfy` | the step runner |
| `net.dfy` | `net.SplitHostPort`, `net.JoinHostPort`, and decimal formatting and parsing |
| `replicators.dfy`, `distributed.dfy`, `agent.dfy`, `segment.dfy` | the four pieces |

## Model

| member | source | states |
|---|---|---|
| Channels.Signal.Close | internal/log/replicators.go:109 | closing a channel requires it to be open (a second close panics) and leaves it closed |
| Replicators.Replicator.constructor | internal/log/replicators.go:12-20 | the zero value: nil map, nil close channel, no logger, not closed, no loop started |
| Replicators.Replicator.Init | internal/log/replicators.go:122-133 | each nil field (logger, map, close channel) is filled and no set field is replaced; on an initialized replicator nothing changes; map, flag and loops are kept |
| Replicators.Replicator.Join | internal/log/replicators.go:24-44 | always nil; closed or already-present name: map and loops unchanged; otherwise exactly that name is added, with a fresh open signal, and one loop is started for it |
| Replicators.Replicator.StartLoop | internal/log/replicators.go:38-40 | the new peer gets a fresh, open leave signal, no other entry changes, and one loop listening on that signal is appended |
| Replicators.Replicator.Leave | internal/log/replicators.go:101-113 | always nil; absent name: nothing changes; present name: exactly its signal is closed (it was open) and only its entry is removed |
| Replicators.Replicator.Close | internal/log/replicators.go:139-150 | always nil; the first call sets `closed` and closes the still-open global signal; later calls change nothing; peers stay in the map |
| Replicators.AtMostOneListeningLoop | internal/log/replicators.go:33-40 | the invariant kept by all methods: two loops for the same peer that are both still listening are the same loop |
| Replicators.JoinCloseLeave | internal/log/replicators.go:101-113 | a peer joined before `Close` stays in the map, a later `Join` starts no loop, and a later `Leave` still signals and removes it |
| Steps.Run | internal/agent/agent.go:64-68 | the specification of a step loop with early return: the steps run in order until one does not return nil, whose status ends the run; its properties are stated by the three lemmas below |
| Steps.RunStopsAtFirstFailure | internal/agent/agent.go:64-68 | the steps that ran are a prefix of the list; the run ends nil iff all ran and all returned nil; otherwise the last step run gave the final status and every earlier step returned nil |
| Steps.RunInOrder | internal/agent/agent.go:181-185 | the loop over step functions with early return produces exactly `Run` |
| Steps.RunConcat | internal/log/distributed.go:27-33 | running two step lists back to back is running their concatenation; the second starts only if the first ended nil |
| Net.AddrError | internal/agent/agent.go:44 | the error text ends with the reason, and is exactly the reason iff the address is empty, as Go's `AddrError` prints it |
| Net.SplitHostPort | internal/agent/agent.go:44 | on success the input is `host:port` or `[host]:port`, the port has no colon, and neither part has a bracket; an unbracketed input gives a host with no colon |
| Net.SplitJoinHostPort | internal/agent/agent.go:44 | splitting a joined host and port gives them back |
| Net.SplitBracketed | internal/agent/agent.go:44 | `[host]:port` with a colon in the host splits at the colon after the closing bracket, giving back host and port |
| Net.JoinHostPort | internal/agent/agent.go:48 | the corrected join: the address ends with `:` and the port, and a host holding a colon is wrapped in brackets |
| Net.FormatInt | internal/agent/agent.go:48 | `%d` of an int: non-empty, a minus sign exactly for a negative number, then digits only, so never a colon or bracket |
| Net.ParseFormatInt | internal/agent/agent.go:48 | the decimal form of any integer parses back to it |
| Agents.RPCAddr | internal/agent/agent.go:43-49 | error iff `BindAddr` does not split, and then the address is `" "` with the splitter's error |
| Agents.RPCAddrSameHost | internal/agent/agent.go:43-49 | for every bind address that splits into a host without a colon (`host:port` or `[host]:port`), the RPC address splits back into the bind host and a port that reads as `RPCPort`; with `Agents.RPCAddrDropsIPv6Brackets` this covers every bind address that splits |
| Agents.SplitIPv6Loopback | internal/agent/agent.go:44 | the bind address `[::1]:8400` splits into host `::1` and port `8400` |
| Agents.RPCAddrDropsIPv6Brackets | internal/agent/agent.go:48 | as written: when the bind host contains a colon, the RPC address no longer splits |
| Agents.JoinedRPCAddr | internal/agent/agent.go:43-49 | corrected `RPCAddr`: error iff `BindAddr` does not split |
| Agents.JoinedRPCAddrSameHost | internal/agent/agent.go:48 | corrected: every bind address that splits, IPv6 included, gives an RPC address on the same host whose port reads as `RPCPort` |
| Agents.AssignsAsWritten | internal/agent/agent.go:105-108 | as written, no setup step sets the replicator field; every step but the logger's sets a field |
| Agents.TeardownOutcome | internal/agent/agent.go:172-180 | a teardown step called through a nil field panics; otherwise only leaving the membership and closing the log can fail, with those collaborators' statuses |
| Agents.AsWrittenShutdownPanics | internal/agent/agent.go:105-108 | as written, setup leaves the replicator nil, so a shutdown returns a failed leave's error, and otherwise runs leave and then replicator close, and panics there; the server is never stopped nor the log closed |
| Agents.ShutdownStopsAtFirstError | internal/agent/agent.go:172-186 | with the replicator stored, teardown runs leave, replicator close, graceful stop and log close in order, and returns the first error; a failed leave skips the other three |
| Agents.Agent.constructor | internal/agent/agent.go:52-55 | an agent with the config, an open `shutdowns` channel, no components, not shut down |
| Agents.Agent.New | internal/agent/agent.go:51-71 | setup steps run in the order logger, log, server, membership, and stop at the first failure; the agent is returned iff all succeed, holding the fields the steps assign (`AssignsAsWritten` models the program as written, `Assigns` the corrected one) |
| Agents.Agent.Shutdown | internal/agent/agent.go:164-187 | an already shut-down agent returns nil and does nothing; the first call sets the flag, closes `shutdowns` before any step, then runs the teardown until the first error and returns it |
| Agents.ShutdownTwiceAsWritten | internal/agent/agent.go:164-187 | as written, after a successful `New`: the first `Shutdown` returns a failed leave's error and otherwise panics at the nil replicator; a second call (the panic recovered) returns nil |
| Agents.ShutdownTwice | internal/agent/agent.go:164-187 | corrected (replicator stored): the first `Shutdown` returns the failed leave's error, else the log close's; a second call returns nil |
| Segments.IndexCapacity | log_package/internal/log/segment_test.go:27 | with a cap of k entries' worth of bytes, the index refuses an entry and counts as maxed exactly once it holds k entries |
| Segments.Segment.constructor | log_package/internal/log/segment_test.go:29-32 | a segment over existing files continues at base + number of indexed records (16 for new files at base 16) |
| Segments.Segment.Append | log_package/internal/log/segment_test.go:34-45 | if the index has room, the value gets the next offset and is appended; if full, `io.EOF` with offset 0 and no record added; the store grows either way |
| Segments.Segment.IsMaxed | log_package/internal/log/segment_test.go:32-56 | a full store or an index at its byte cap makes the segment maxed; a maxed segment has a full store or an index with no room for one more entry |
| Segments.Segment.Read | log_package/internal/log/segment_test.go:39-41 | `Ok` iff the offset is in [base, next), with the value appended at that offset; otherwise `io.EOF` |
| Segments.Segment.Close | log_package/internal/log/segment_test.go:58-59 | closing succeeds and keeps the files' contents |
| Segments.TestSegment | log_package/internal/log/segment_test.go:23-59 | for any entry width and any store cost ≥ the value length: a new segment at base 16 has next offset 16 and is not maxed; offsets are 16, 17, 18; reads give back "hello world"; the fourth append is `io.EOF`; the segment is maxed; a reopened segment with a 33-byte store cap is maxed; close succeeds |
| Distributed.Envelope | internal/log/distributed.go:132-144 | the command is one byte longer than the request; its first byte is the type and the rest is the request |
| Distributed.UnwrapEnvelope | internal/log/distributed.go:132-144 | splitting off the first byte inverts the envelope, in both directions |
| Distributed.Classify | internal/log/distributed.go:146-154 | success iff the future has no error and the response is not an error value; errors come from the future first, then from the response |
| Distributed.DistributedLog.constructor | internal/log/distributed.go:24-26 | a log with the config, and no application log or consensus yet |
| Distributed.DistributedLog.Apply | internal/log/distributed.go:128-155 | a marshal error is returned and nothing is proposed; otherwise the envelope of the marshalled request is proposed and the future decided for this proposal is classified; consensus stays the same instance, and the application log may change |
| Distributed.DistributedLog.Append | internal/log/distributed.go:157-166 | on any error, offset 0 with that error; on a produce response, its offset; any other successful response panics at the type assertion; consensus stays the same instance, and the application log may change |
| Distributed.AppendSucceedsIff | internal/log/distributed.go:157-166 | an append succeeds iff the future has no error and the response is a produce response |
| Distributed.DistributedLog.Read | internal/log/distributed.go:168-170 | exactly what the application log reads; its frame excludes the consensus field |
| Distributed.LogStoreConfigOf | internal/log/distributed.go:52-53 | the log store's config is the caller's, with the segment's initial offset set to 1 |
| Distributed.LogStoreConfig | internal/log/distributed.go:52-53 | the field-by-field copy-and-set computes `LogStoreConfigOf` |
| Distributed.Override | internal/log/distributed.go:83-95 | a configured timeout is used iff it is non-zero, else the default |
| Distributed.ConsensusConfigOf | internal/log/distributed.go:81-95 | defaults plus the local ID, with each timeout overridden only when the configured one is non-zero; other settings kept |
| Distributed.ConsensusConfigOverrides | internal/log/distributed.go:83-95 | all timeouts zero gives the defaults; all non-zero replaces every timeout; applying the overrides twice is the same as once |
| Distributed.ConsensusConfigFrom | internal/log/distributed.go:81-95 | the sequence of assignments and non-zero checks computes `ConsensusConfigOf` |
| Distributed.ShouldBootstrap | internal/log/distributed.go:116 | a bootstrap happens only when asked for, never when state exists, and always when asked for with no state |
| Distributed.Plan | internal/log/distributed.go:20-126 | the steps in order: log directory, application log with the caller's config, consensus directory, log store with the derived config, stable store, snapshot store, consensus with the derived config, the state check; a ninth step, the bootstrap, is present iff bootstrap is set and no existing state was reported |
| Distributed.DistributedLog.SetupLog | internal/log/distributed.go:36-44 | runs make-dir then open-log, stops at the first error, and stores the opened log on success |
| Distributed.DistributedLog.SetupRaft | internal/log/distributed.go:46-126 | runs the consensus steps in order, stops at the first error, and on success holds consensus started with the derived config over the log store's config |
| Distributed.NewDistributedLog | internal/log/distributed.go:20-34 | steps taken and error are those of running `setupLog` then `setupRaft`; a log is returned iff there is no error, holding both components |
| Distributed.BootstrapIff | internal/log/distributed.go:108-124 | a bootstrap is attempted iff bootstrap is set, the state check reported no state, and all earlier steps succeeded |

## Left out

- `Replicator.replicate` and `logError` (internal/log/replicators.go:47-97, 152-158) are left out. They dial a peer, stream records and log errors, which is network I/O and goroutines. Starting one is recorded only as a `Loop` entry.
- The mutex in `Replicator` and `Agent` is not modelled. Each method holds the lock for its whole body, so the model treats calls as running one at a time.
- `Replicator.DialOptions`, `LocalServer` and the zap logger are left out. The logger is only its name.
- Consensus, the BoltDB stable store, the file snapshot store, the network transport and `proto.Marshal` are outside code. They are given by the `Env` value and function parameters. `StreamLayer`, `maxPool`, `retain` and the 10-second timeouts are only passed on to them, so they are left out.
- Directory paths and `os.MkdirAll` are left out. Each directory creation is a step that may fail.
- The state machine that executes commands, and `Log`, are not part of this model. `Distributed.Unwrap` is the decoding the envelope is built for, and the application log is only its `Read`.
- `AppendRequestType` is not part of this model. Its value is a parameter of `Append`.
- Distributed.DistributedLog.Apply: `bytes.Buffer.Write` never fails, so the two error checks after the buffer writes are not modelled.
- Distributed.DistributedLog.Append: how consensus decides each proposal is not modelled. Each call of `Apply` or `Append` is given the future decided for its own proposal. The state machine applying a decided command to the application log (internal/log/distributed.go:47) is not followed, so after an `Apply` or `Append` nothing is known about the application log.
- Distributed.DistributedLog.Append: a successful response that is a nil `*ProduceResponse` would also panic. Every produce response in the model carries an offset.
- Offsets are `nat`. The `uint64` range and wrap-around are not modelled.
- `setupLogger`, `setupLog`, `setupServer` and `setupMembership` of the agent are left out: zap, TLS credentials, `net.Listen`, gRPC serving, discovery. Each is a setup step that returns a status. What they store in the agent is `Agents.AssignsAsWritten` as written and `Agents.Assigns` once the replicator is stored (see Findings).
- The agent's two TLS configurations are only handed on to gRPC, so they are left out.
- Net.SplitHostPort: an error is a `Failure` holding the text of Go's `AddrError`, not a typed error.
- The segment's store and index implementations are not part of this model, nor are their byte layouts. The entry width and each record's store cost are parameters. A full index is one that has no room for one more entry. The store is written before the index, so a refused append still grows the store.
- Segments.Segment.Read: the error for an offset outside the segment is `io.EOF`. Where the implementation raises it is not visible.
- Append and Read after a segment's `Close` are not constrained.
- api/v1/error.go is left out. It is a thin wrapper over gRPC status details.
- The server and agent tests drive gRPC over TLS with timing, so they are not modelled.

## Findings

| source | as written | input that shows it | evidently intended | confidence | as-written member | corrected member |
|---|---|---|---|---|---|---|
| internal/agent/agent.go:105-108, 174 | `setupMembership` builds the replicator in a local variable and never stores it in `a.replicator`. `Shutdown` then calls `Close` on the nil replicator, and `Close` takes its mutex first, which panics. | `New` with every setup step succeeding, then `Shutdown` with the membership leave returning nil | `a.replicator = replicator` in `setupMembership`, so shutdown closes the replicator and goes on to stop the server and close the log | high, not executed | Agents.ShutdownTwiceAsWritten | Agents.ShutdownTwice |
| internal/agent/agent.go:48 | `RPCAddr` joins host and port with `"%s:%d"`, which drops the brackets of an IPv6 host | `BindAddr` `"[::1]:8400"` with `RPCPort` 8401 gives `"::1:8401"`, which `net.SplitHostPort` rejects | `net.JoinHostPort(host, strconv.Itoa(port))`, giving `"[::1]:8401"` | medium, not executed | Agents.RPCAddrDropsIPv6Brackets | Agents.JoinedRPCAddrSameHost |
