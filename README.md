# rm2fb-deconf address resolution, modelled in Dafny

rm2fb-deconf finds six internal functions in a stripped reMarkable `xochitl` binary: update,
create, shutdown, notify, wait and getInstance. It writes their addresses to a configuration
file. It does not analyse the binary itself. It asks radare2, through r2pipe, for three things:
cross-references (`axtj`), decompilations (`pdgj`) and the import table (`iij`). It then applies
one fixed heuristic per function to the answers.

This project models that engine, the `Radare` struct of `src/radare.rs`, and proves what each
heuristic returns:

- **update, create, shutdown**: the containing function of the first reference to a fixed
  string literal.
- **notify**: resolves update first. It decompiles update and counts, per address, the
  annotations whose name starts with `fcn.`. It picks an address counted exactly twice.
- **wait**: finds the first import named `usleep`. It counts the references to its stub per
  calling function and picks a caller with the largest count.
- **getInstance**: resolves wait first. It asks for wait's callers and, for each in order, for
  the references to that caller's name. Failing queries are skipped. It answers with the first
  reference of the first non-empty list.

Each getter memoises its answer in an `Option<u64>` field. A failure leaves the field empty, so
a later call tries again.

Files:

- `wrappers.dfy`: the `Option` and `Result` types.
- `records.dfy`: the backend's records (`Reference`, `Decompile`, `Annotation`, `Import`) and
  the errors. An `Error` is one of three things: a backend fault passed on by `?`, an error
  wrapped with the context of a step, or a missing value turned into an error by that context.
- `oracle.dfy`: the backend as an oracle. `xrefs` and `decompile` are total functions of the
  query text, and `imports` is a fixed answer. An address is named in a query by its decimal
  text (`Decimal`, Rust's `u64::to_string`).
- `heuristics.dfy`: each heuristic as a specification over the backend's answers, plus the
  counting and selection steps and the lemmas about them. The answers of notify and wait are
  given as relations (`NotifyOutcome`, `WaitOutcome`), because the source picks among tied
  candidates in `HashMap` order, which Rust leaves unspecified.
- `radare.dfy`: the `Radare` class, with six cache fields and a ghost `log` of every backend
  query issued. `Valid()` is the class invariant. Every cached address is what its heuristic
  yields from the backend, and notify (getInstance) is cached only once update (wait) is.
- `session.dfy`: the getter sequence of `src/main.rs`. It also has each heuristic evaluated
  against a small concrete backend, and a run of the engine through that sequence on the same
  backend.

Notify and wait pick among their candidates in `HashMap` iteration order
(`src/radare.rs:160-162`, `195-197`), which Rust randomises per process. So tied candidates can
resolve differently from one run to the next. The model therefore promises only some callee
mentioned exactly twice, and some caller with the largest count.

The `No getInstance callers found` context (`src/radare.rs:222-224`) can never fire, because
`find` at line 219 only returns a non-empty list. The model has no such error.

## Model

| member | source | states |
|---|---|---|
| `Oracle.Decimal` | src/radare.rs:138 | the query text of an address is non-empty and all decimal digits, with two or more digits exactly from 10 upwards |
| `Oracle.DecimalValue` | src/radare.rs:138 | the digits of an address's query text, read most significant first, spell the address, and there is no leading zero |
| `Oracle.DecimalInjective` | src/radare.rs:185 | distinct addresses give distinct query texts (from the round trip), so each query names exactly the address it was built from |
| `Heuristics.AnchoredMeaning` | src/radare.rs:81-89 | a string-anchored lookup succeeds exactly when the anchor has a reference. It returns the first reference's containing function, wraps a query fault in the step's context, and reports the step when the list is empty |
| `Heuristics.MentionsCountsMarkers` | src/radare.rs:141-158 | the notify count of an address is the number of annotations that carry that offset and a `fcn.`-prefixed name |
| `Heuristics.UnmarkedIgnored` | src/radare.rs:145-153 | an annotation with no name, a name without the `fcn.` prefix, or no offset changes no count, wherever it stands |
| `Heuristics.MentionsProvenance` | src/radare.rs:150-157 | every counted address is the offset of some `fcn.` annotation |
| `Heuristics.CountCallees` | src/radare.rs:141-158 | the map built by the annotation loop holds exactly the addresses with a positive count, each with its count |
| `Heuristics.FindExactlyTwice` | src/radare.rs:160-163 | the selection returns an entry whose count is 2, in any walk order, and returns none only if no entry has count 2 |
| `Heuristics.CalleeMentionedTwice` | src/radare.rs:141-163 | the notify selection returns a callee mentioned exactly twice, and returns none only when no address is mentioned exactly twice |
| `Heuristics.NotifyFailure` | src/radare.rs:137-163 | notify fails exactly when the decompilation of update fails or no callee is mentioned exactly twice |
| `Heuristics.NotifyProvenance` | src/radare.rs:137-167 | a notify answer is the offset of an annotation in the decompiled update function, and that annotation carries a `fcn.` name |
| `Heuristics.FirstNamed` | src/radare.rs:178-181 | the import lookup returns the position of the first import named `usleep`, and returns none exactly when no import has that name |
| `Heuristics.CallCountCountsSites` | src/radare.rs:186-193 | the wait count of a function is the number of stub references whose containing function it is |
| `Heuristics.CallCountPositive` | src/radare.rs:186-193 | a function's count is positive exactly when some reference lies inside it |
| `Heuristics.CountCallers` | src/radare.rs:183-193 | the map built by the reference loop holds exactly the functions with a positive count, each with its count |
| `Heuristics.MaxByCount` | src/radare.rs:195-198 | the maximum selection returns an entry whose count is at least every other entry's, in any walk order, and returns none exactly for an empty map |
| `Heuristics.BusiestCaller` | src/radare.rs:183-198 | the wait selection returns a function that calls the stub and is called from no fewer sites than any other function. It returns none exactly when there are no references |
| `Heuristics.SleepLookup` | src/radare.rs:176-185 | wait fails with the no-`usleep` step when no import has that name. Otherwise its second query asks for the references to the first such import's stub |
| `Heuristics.WaitProvenance` | src/radare.rs:195-202 | a wait answer is the containing function of a reference to the `usleep` stub |
| `Heuristics.FirstAnswering` | src/radare.rs:215-220 | the caller search picks the first caller whose second-hop query succeeds with a non-empty list. Every earlier caller failed or was empty, and none is picked when no caller answers |
| `Heuristics.FirstAnsweringAt` | src/radare.rs:217-219 | a caller that answers, when every caller before it did not, is the one picked |
| `Heuristics.InstanceChoice` | src/radare.rs:215-225 | when caller k is the first to answer, getInstance returns the first reference of caller k's list. Its queries are wait's callers, then one per caller up to and including k |
| `Heuristics.InstanceExhausted` | src/radare.rs:215-220 | getInstance fails with the no-caller step exactly when no caller's second-hop query answers |
| `Heuristics.InstanceProvenance` | src/radare.rs:215-225 | a getInstance answer is the containing function of the first reference to the first caller of wait whose own reference query answers with a non-empty list |
| `Engine.Radare.constructor` | src/radare.rs:57-67 | a new engine has all six slots empty, has issued no query, and satisfies the invariant |
| `Engine.Radare.Axtj` | src/radare.rs:232-242 | returns the backend's references for the target and logs exactly that one query |
| `Engine.Radare.Pdgj` | src/radare.rs:244-255 | returns the backend's decompilation for the target and logs exactly that one query |
| `Engine.Radare.Iij` | src/radare.rs:257-264 | returns the backend's import table and logs exactly that one query |
| `Engine.Radare.GetUpdateAddress` | src/radare.rs:75-90 | a cached slot is returned with no query. Otherwise one query for the update string is issued and the result is the first reference's function. Only the update slot changes, and it is set exactly on success |
| `Engine.Radare.GetCreateAddress` | src/radare.rs:92-107 | the same as update for the generator-thread string, touching only the create slot |
| `Engine.Radare.GetShutdownAddress` | src/radare.rs:109-127 | the same as update for the shutdown string, touching only the shutdown slot |
| `Engine.Radare.GetNotifyAddress` | src/radare.rs:129-168 | a cached slot is returned with no query. Otherwise update is resolved first, and its failure is returned unchanged with notify left empty. Then update's function is decompiled and a callee mentioned exactly twice is returned, or failure. Only the update and notify slots change |
| `Engine.Radare.GetWaitAddress` | src/radare.rs:170-203 | a cached slot is returned with no query. Otherwise the result is a busiest caller of the first `usleep` stub, or the failing step. It issues the imports query and then, if `usleep` exists, one reference query. Only the wait slot changes |
| `Engine.Radare.GetInstanceAddress` | src/radare.rs:205-230 | a cached slot is returned with no query. Otherwise wait is resolved first, and its failure is returned with the wait context and getInstance left empty. Then the two-hop search runs. Only the wait and getInstance slots change, and a cached wait is kept |
| `Engine.Radare.InstanceFromWait` | src/radare.rs:215-225 | the two-hop search from wait returns the getInstance heuristic's answer and issues exactly its queries |
| `Engine.Radare.FindInstanceCaller` | src/radare.rs:215-220 | the lazy search over callers returns the first answering caller's first reference. It stops querying at that caller |
| `Session.ResolveAll` | src/main.rs:40-45 | resolving the six in the program's order gives, on success, what each heuristic yields from the backend. On failure some slot stays empty, and the heuristic of update, create, shutdown, notify, wait or getInstance has no answer from the backend |
| `Session.DemoAnchored` | src/radare.rs:81-126 | against the small backend, update, create and shutdown are 0x1000, 0x1100 and 0x1200 |
| `Session.DemoNotify` | src/radare.rs:141-165 | a decompilation naming 0x2000 twice and 0x3000 once makes 0x2000 the only possible notify answer, and an allowed one |
| `Session.DemoWait` | src/radare.rs:183-200 | five `usleep` call sites all inside 0x5000 make 0x5000 the only possible wait answer, and an allowed one |
| `Session.DemoInstance` | src/radare.rs:215-227 | when wait's first caller has no references and the second is referenced from 0x7000, getInstance is 0x7000 |
| `Session.DemoRun` | src/main.rs:36-45 | a fresh engine on the small backend, run through the six getters, yields 0x1000, 0x1100, 0x1200, 0x2000, 0x5000 and 0x7000 |

## Left out

- `analyze` (src/radare.rs:69-73) is not modelled. It only asks the backend to run its analysis passes and returns nothing the engine uses.
- The r2pipe transport and the serde JSON decoding inside `axtj`, `pdgj` and `iij` are folded into the oracle. A failed round trip and a response of the wrong shape are the two `Fault` kinds.
- `pdgj` sends two commands, a seek and then the decompile request. The model treats them as one query, `DecompileAt`.
- The backend is modelled as unchanging while the engine runs, so each query's answer depends only on its text. The seek `pdgj` performs changes nothing that the other queries read.
- The `anyhow` message texts are replaced by one `Step` tag per `.context(...)` call, with the message noted beside each tag.
- Which of several tied candidates notify and wait return is not modelled. The source walks a `HashMap`, whose order Rust leaves unspecified and randomises per process.
- CountCallees: counts are unbounded, whereas the source counts in `u32`. A count would overflow only after 2^32 call sites.
- CountCallers: counts are unbounded, for the same reason as CountCallees.
- Session.ResolveAll: on failure it names a heuristic that has no answer, but not which step's error is returned. It does not give the query log of the whole run either. Each getter's own contract gives its queries.
- All of `src/main.rs` except the getter sequence is not modelled: argument parsing, opening the pipe, and writing the configuration file with its hexadecimal formatting.
