# consulssm ACL reconciliation, modelled in Dafny

consulssm keeps the ACLs of a Consul cluster in line with ACL definitions stored as
parameters in AWS SSM Parameter Store. A sync run works as follows:

1. It normalises the definition prefix and the ID-index prefix so that each ends in a slash.
2. It refuses an empty definition prefix.
3. Optionally, it returns early unless the local agent is the Consul leader.
4. It lists every parameter under the definition prefix, page by page.
5. For each parameter:
   - It decodes the parameter into an ACL item. The slug is the last path segment of the
     name. The type defaults to `client`. A missing ID is looked up in the ID index at
     `idPrefix + slug`.
   - It reconciles the item with the cluster. The possible outcomes are:
     - create with a minted ID and record that ID in the index;
     - create under the declared ID;
     - update;
     - destroy;
     - skip.

Decode, index-read, lookup and create failures end the run. Update and destroy
failures are only logged. The outcome of the index write is discarded without being logged.
A refused or failed index write therefore leaves the index empty, and the next cycle
creates the ACL again under the ID Consul mints then.

The project also models the helpers this engine uses from the client set:

- the not-found rule of `GetStringParameter`;
- the request `PutStringParameter` builds;
- the leader-flag parsing of `isLeader`;
- the ACL bootstrap, which requests a management token and stores it in SSM.

## How the model is built

- **State.** `Acl.ClientSet` is a class with two fields that its methods update:
  - `acls`, the cluster's ACL table, mapping an ID to a name, type and rules;
  - `params`, the parameter store, mapping a name to a value.

  It also has a constant `config` (KMS key, overwrite, insecure) and a ghost trace
  `calls` of every request issued to either service. `State()` bundles the fields into a
  `Types.World` value.
- **Services.** The SSM reads and writes and the Consul ACL lookups, creates, updates and
  destroys are methods of the class. Each is specified by a pure function in `Remote` that
  gives the reply and the new `World`. All later proofs use these functions. Three requests
  do not change either map and have no `Remote` function:
  - the listing, which `Sync` records in the trace itself;
  - the agent self request (`ConsulSelf`) and the bootstrap request (`ConsulBootstrap`),
    which record the request and return the given answer.
- **Specification.** The source's operations are methods with the source's own control
  flow: nested ifs, early returns, the item filled in field by field, and the two nested
  loops over pages and records. Each method's `ensures` ties its reply and new state to a
  function, as follows:

  | method | specified by |
  |---|---|
  | `ParameterToACL` | `SyncRules.Parse` |
  | `ManageACL` | `SyncRules.Manage` |
  | the loops | `SyncRules.Run` over `SyncRules.Flatten(pages)` |
  | `Sync` | `SyncRules.SyncSpec` |
  | `Bootstrap` | `BootstrapRules.BootstrapSpec` |

  The contracts of `Parse`, `SyncSpec` and `BootstrapSpec` give the outcome of every
  branch. The branch outcomes of the other functions are in lemmas:
  - `Manage`: `ReconcileProperties.ManageOutcomes`;
  - `ProcessRecord`: `RecordMalformed`, `RecordIndexReadFails`, `RecordWithId` and
    `RecordWithoutId` in `ReconcileProperties`;
  - `Run`: `SyncProperties.RunStep` (one more record) and `SyncProperties.RunStopsAtFatal`
    (nothing after a fatal step).

  The lemmas in `ReconcileProperties`, `SyncProperties`, `PathProperties` and `Scenarios`
  prove the engine's promises about these functions.
- **Inputs.** Everything the services might answer is an input:
  - Per record, a `Types.Faults` value gives the optional failure of each request and the
    ID Consul mints. A run receives these as `faults: nat -> Faults`, indexed by the
    record's position in the listing.
  - The agent's `/agent/self` answer.
  - The listing, given as pages together with an optional failure reported after them.
  - Whether each payload decodes: `Types.Payload`.
- **Fatal errors.** `log.Fatalf` becomes a `Step.Fatal(error)` that ends the run, and Sync
  returns that error. All other logging does nothing.
- **SSM writes.** SSM refuses a write to an existing name unless Overwrite is set. It
  answers `ParameterAlreadyExists` in that case.

Two things the code does that a reader may not expect:

- The slug is not guaranteed to be non-empty. A parameter name that ends in `/`, or that
  equals the prefix, gives the empty slug (`SyncRules.LastSegment`).
- A failure of the listing does not abort the cycle before any records are handled.
  `GetParametersByPathPages` returns its error after the callback has handled every page
  it delivered. Sync then reports `ListFailed` (acl/sync.go:68-71).

## Model

| member | source | states |
|---|---|---|
| SyncRules.EnsureTrailingSlash | acl/sync.go:188-193 | `""` exactly for `""`; every non-empty result ends in `/`; the input is a prefix of the result and at most one character shorter; an input already ending in `/` comes back unchanged |
| PathProperties.EnsureTrailingSlashIdempotent | acl/sync.go:188-193 | normalising twice is the same as normalising once |
| PathProperties.EnsureTrailingSlashAppends | acl/sync.go:188-193 | a non-empty input that does not end in `/` gets exactly `/` appended |
| SyncRules.LastSegment | acl/sync.go:79-80 | the slug contains no `/`, is a suffix of the string, and is either the whole string or preceded by a `/`; this is the last element of `strings.Split(s, "/")` |
| PathProperties.LastSegmentAfterSlash | acl/sync.go:79-80 | a front part that is empty or ends in `/` does not affect the last segment |
| PathProperties.SlugIsLastSegment | acl/sync.go:79-80 | under a prefix that is empty or ends in `/` (Sync always uses one), the slug is the last segment of the full parameter name |
| PathProperties.LastSegmentOfPlain | acl/sync.go:79-80 | a string without `/` is its own last segment |
| PathProperties.SlugOfDirectChild | acl/sync.go:79-80 | the slug of `prefix + leaf`, where `leaf` has no `/`, is `leaf` |
| SyncRules.TrimPrefix | acl/sync.go:79 | `strings.TrimPrefix`: when the prefix leads the string, the prefix followed by the result is the string; otherwise the string is unchanged; the result is always a suffix of the string |
| SyncRules.Slug | acl/sync.go:79-80 | the slug holds no `/` and is a suffix of the parameter's full name |
| SyncRules.DeclaredType | acl/sync.go:98-101 | an empty or missing type stands for `client`; any other type is kept |
| SyncRules.Normalise | acl/sync.go:83-101 | the item carries the decoded name, rules, destroy flag, resolved ID and slug; an empty or missing type becomes `client`, and a declared type is kept; the ACL the item asks for is the definition's target (name, type, rules) |
| SyncRules.ReadIndex | acl/sync.go:89-96 | one SSM read of the index key; with no failure the value is the stored one, or `""` when the key is absent; any other failure is an `IndexReadFailed` naming the key |
| ClientSetRules.GetString | acl/client_set.go:67-76 | a stored value is returned as is; with `failNotFound` off, ParameterNotFound becomes `""` with no error; every other error, and not-found with `failNotFound` on, is returned unchanged; a non-empty result always comes from the store |
| SyncRules.Parse | acl/sync.go:77-104 | a malformed payload fails with `DecodeFailed` and no request; a declared ID means no index read and that ID is kept; an empty ID means exactly one read of `idPrefix + slug`, whose value becomes the ID; a read failure other than not-found is fatal; only decoding and the index read can fail; a parsed item is the normalised definition |
| ReconcileProperties.ParseResolves | acl/sync.go:88-101 | when the index answers, parsing issues at most the one index read and gives the normalised item under the resolved ID |
| ClientSetRules.IsLeader | acl/client_set.go:101-119 | each outcome holds exactly when its condition holds: true exactly when `Stats.consul.leader` is the string `"true"`; false exactly when it is another string; one error when `Stats.consul` is not an object; another when `leader` is missing or not a string; a failed request is passed on |
| SyncRules.Decide | acl/sync.go:108-170 | the decision tree, each action exactly under its condition: no ID means warn (destroy) or create and index; an ID that is not live means nothing to destroy or create under the ID; a live ID means destroy, skip when name, type and rules all match, or update |
| SyncRules.Perform | acl/sync.go:108-183 | each action only adds requests to the trace; the only fatal outcome is a failed create |
| SyncRules.Manage | acl/sync.go:107-185 | reconciling one item only adds requests to the trace; the only fatal outcomes are a failed lookup or a failed create |
| ReconcileProperties.ManageOutcomes | acl/sync.go:107-185 | every leaf of the decision tree: the exact requests, the new ACL table and the new store, and whether the run goes on |
| ReconcileProperties.ManageWithoutId | acl/sync.go:108-128 | no ID and no destroy: one create without an ID; then, on success, one write of the minted ID at `idPrefix + slug`, which SSM stores or refuses by its own rule; a failed create is fatal |
| ReconcileProperties.ManageWithIdKeepsStore | acl/sync.go:129-184 | every branch with an ID leaves the parameter store unchanged (no index write) |
| ReconcileProperties.ManageSettled | acl/sync.go:132-169 | an ID that is already live and matching, or absent while destroy is asked, costs one lookup and changes nothing |
| ReconcileProperties.ManageDestroysLive | acl/sync.go:160-165 | a live ID marked for destruction gets one lookup and one destroy, and leaves the table without that ID |
| ReconcileProperties.ManageUpdatesLive | acl/sync.go:170-181 | a live ID whose ACL differs gets one lookup and one update, and then holds the definition under that same ID |
| ReconcileProperties.ManageStepIgnoresLoggedFaults | acl/sync.go:163-180 | whether reconciliation goes on does not depend on update, destroy or index-write failures |
| SyncRules.ProcessRecord | acl/sync.go:61-64 | handling one record only adds requests to the trace; its fatal outcomes are in `RecordMalformed`, `RecordIndexReadFails` and `RecordFatalKinds` |
| ReconcileProperties.RecordMalformed | acl/sync.go:83-86 | a payload that does not decode is a fatal `DecodeFailed` for the record, with no request |
| ReconcileProperties.RecordIndexReadFails | acl/sync.go:88-96 | for a definition without an ID, an index read that fails other than with not-found is a fatal `IndexReadFailed` naming the key, after that one read |
| ReconcileProperties.RecordIsManage | acl/sync.go:61-64 | when the index answers, a record is the reconciliation of its normalised item after the index read |
| ReconcileProperties.RecordWithId | acl/sync.go:88-96 | a record that declares an ID is reconciled under that ID with no index read |
| ReconcileProperties.RecordWithoutId | acl/sync.go:88-96 | with no ID declared and none in the index, a record is the ID-less reconciliation after one index read |
| ReconcileProperties.RecordUpdatesLive | acl/sync.go:170-181 | a declared ID whose live ACL differs is overwritten under that ID after one lookup, with no index read or write |
| ReconcileProperties.RecordConverges | acl/sync.go:107-185 | convergence: with no lookup, create or update failure, a definition not marked for destruction ends up live under its resolved or minted ID, with its name, type and rules, and the run goes on |
| ReconcileProperties.IdentifierAuthority | acl/sync.go:137-155 | a declared ID that is not live leads to one lookup and one create carrying that same ID; there is no index write; the result is the new ACL under that ID, or a fatal error |
| ReconcileProperties.CreateAfterRead | acl/sync.go:117-126 | after the index read, a no-ID create that succeeds is followed by one write of the minted ID at `idPrefix + slug`; the table gains the minted ACL |
| ReconcileProperties.CreateFailsAfterRead | acl/sync.go:117-124 | after the index read, a failed no-ID create is fatal, and nothing else is asked |
| ReconcileProperties.CreatesAndIndexes | acl/sync.go:108-128 | no ID declared and none in the index: an index read, a create with no ID, then one write of the minted ID at the slug's index key; the table gains the minted ACL |
| ReconcileProperties.CreateWithoutIdFails | acl/sync.go:117-124 | no ID and a failed create: a fatal `CreateFailed`, with both services unchanged |
| ReconcileProperties.QuietWithoutId | acl/sync.go:108-112 | destroy with no ID to destroy by: the index read and nothing else |
| ReconcileProperties.QuietWithId | acl/sync.go:132-169 | a record already settled under its ID: at most the index read, then one lookup; no change |
| ReconcileProperties.QuietWithoutIdReadsOnly | acl/sync.go:108-112 | destroy with no ID: the pass only reads, and changes neither service |
| ReconcileProperties.QuietWithIdReadsOnly | acl/sync.go:132-169 | a settled record: the pass issues the index read, if any, and one lookup, and changes neither service |
| ReconcileProperties.SecondPassReadsOnly | acl/sync.go:107-185 | a pass over a definition that the world already agrees with issues only reads, and changes neither service |
| ReconcileProperties.FirstPassSettles | acl/sync.go:107-185 | one pass with no failures leaves the cluster agreeing with the definition under a known ID; when no ID was known, that is the minted one (provided SSM accepts the index write) |
| ReconcileProperties.RecordIdempotent | acl/sync.go:107-185 | idempotence, provided Consul mints a non-empty ID and SSM accepts the index write when no ID is known (the key is new or Overwrite is set): a second pass with no failures issues only reads and changes neither map, and a definition not marked for destruction is skipped after one lookup |
| ReconcileProperties.RefusedIndexWriteCreatesAgain | acl/sync.go:117-126 | without those conditions idempotence fails: when the index write is refused or fails, the store is unchanged, and the next pass issues a second create and holds the ACL under both minted IDs |
| ReconcileProperties.DestroyThenIdempotent | acl/sync.go:157-166 | destroying a live ACL takes exactly one destroy; a second pass only looks the ID up |
| ReconcileProperties.RecordStepIgnoresLoggedFaults | acl/sync.go:77-185 | only the index read, the lookup and the create decide whether a record stops the run |
| ReconcileProperties.RecordFatalKinds | acl/sync.go:83-154 | a record stops the run only with a decode, index-read, lookup or create failure |
| ReconcileProperties.FailedUpdateKeepsCluster | acl/sync.go:170-180 | a failed update of a differing live ACL leaves the table unchanged and is not fatal |
| SyncRules.Flatten | acl/sync.go:58-66 | no pages hold no records, and one page holds exactly its own records; `FlattenAppend` and `FlattenNext` give the general case |
| SyncRules.Run | acl/sync.go:58-66 | handling the listed records in order only adds requests to the trace |
| SyncProperties.RunStep | acl/sync.go:61-64 | the run over one more record is the run so far followed by that record, unless the run has already stopped |
| SyncProperties.RunStopsAtFatal | acl/sync.go:122-124 | after a fatal step, later records change nothing |
| SyncProperties.FlattenAppend | acl/sync.go:58-66 | the records of two page lists, one after the other, are the records of each in order |
| SyncProperties.FlattenPrefixStep | acl/sync.go:58-66 | the records up to page k are those before it, followed by page k |
| SyncProperties.FlattenNext | acl/sync.go:58-66 | the records of all pages are those before page k, then page k, then those after it |
| ReconcileProperties.RunFatalKinds | acl/sync.go:58-66 | a run stops only with a decode, index-read, lookup or create failure |
| ReconcileProperties.MalformedEndsRun | acl/sync.go:83-86 | after earlier records, a payload that does not decode ends the run with `DecodeFailed`, with no request, and no later record is handled |
| ReconcileProperties.IndexReadFailureEndsRun | acl/sync.go:88-96 | after earlier records, a failed index read for a definition without an ID ends the run with `IndexReadFailed` after that one read, and no later record is handled |
| ReconcileProperties.CreateFailureEndsRun | acl/sync.go:117-124 | the fatal side: after earlier records, a failed create without an ID ends the run, and no later record is handled |
| ReconcileProperties.UpdateFailureContinues | acl/sync.go:170-180 | the logged side: a failed update leaves the table as it was, and the next record is handled |
| SyncRules.ListRequest | acl/sync.go:48-56 | the listing is recursive, with decryption, under the given prefix, and has a page size exactly when one above 0 is given |
| SyncRules.SyncSpec | acl/sync.go:30-74 | an empty normalised prefix is refused before any request; a failed leader probe is an error after only the probe; a non-leader succeeds after only the probe; otherwise the listing is requested with `ListRequest`, and then every listed record is handled in order by `Run`; the final state is that run's; a fatal step is the returned error; otherwise a listing failure is, after the delivered pages; Sync succeeds exactly when the run went on and the listing did not fail |
| ReconcileProperties.SyncErrorKinds | acl/sync.go:30-74 | Sync reports only a missing prefix, a failed leader check, a failed listing, or a fatal failure; update and destroy failures never surface |
| ClientSetRules.PutInputFor | acl/client_set.go:81-93 | the write carries the name, the value and the configured Overwrite flag; its type is `String` when insecure and `SecureString` otherwise; `KeyId` is the KMS key exactly when one is configured |
| ClientSetRules.ConsulStats | acl/client_set.go:107 | the `Stats.consul` section is found exactly when both keys are present and it is an object, and then it is that object's fields |
| Remote.Put | acl/client_set.go:96 | the SSM write, as the model's stand-in for the service: one request logged; the ACL table is untouched; the write is stored exactly when there is no failure and the name is new or Overwrite is set; otherwise the store is unchanged and, without a failure, the answer is ParameterAlreadyExists. `Remote.Get`, `Info`, `Update` and `Destroy` are the other services' answers in the same style: each logs its request and applies its change only when no failure is given |
| Remote.Create | acl/sync.go:117-121 | the Consul create: one request logged; it succeeds exactly when no failure is given, and then stores the ACL under the given ID, or under the minted ID when none is given, and answers that ID; a failure changes nothing |
| BootstrapRules.BootstrapSpec | acl/bootstrap.go:8-24 | empty parameter: an error and no request; failed bootstrap: no ID, an error and no write; once bootstrapped, the ID is returned, the token is written once, and there is an error exactly when SSM refuses the write; a failed write changes nothing; full success stores the ID under the parameter |
| Acl.ClientSet.constructor | acl/client_set.go:35-39 | the client set holds the given settings and starts with an empty trace |
| Acl.ClientSet.SsmGetParameter | acl/client_set.go:62-65 | one GetParameter request, whose reply and state are `Remote.Get` |
| Acl.ClientSet.SsmPutParameter | acl/client_set.go:96 | one PutParameter request, whose reply and state are `Remote.Put` |
| Acl.ClientSet.ConsulInfo | acl/sync.go:132 | one ACL info request, whose reply and state are `Remote.Info` |
| Acl.ClientSet.ConsulCreate | acl/sync.go:146-151 | one ACL create request, whose reply and state are `Remote.Create` |
| Acl.ClientSet.ConsulUpdate | acl/sync.go:173-178 | one ACL update request, whose reply and state are `Remote.Update` |
| Acl.ClientSet.ConsulDestroy | acl/sync.go:163 | one ACL destroy request, whose reply and state are `Remote.Destroy` |
| Acl.ClientSet.ConsulSelf | acl/client_set.go:102 | one agent self request, returning the given answer |
| Acl.ClientSet.ConsulBootstrap | acl/bootstrap.go:14 | one ACL bootstrap request, returning the given answer |
| Acl.ClientSet.GetStringParameter | acl/client_set.go:61-77 | one read; the reply follows `GetString`; with no failure and `failNotFound` off, the reply is the stored value or `""` |
| Acl.ClientSet.BuildPutInput | acl/client_set.go:81-93 | the type is `String` exactly when insecure is set, and `SecureString` exactly when it is not; `KeyId` is set exactly when a KMS key is configured, and then it is that key; Overwrite is the configured flag |
| Acl.ClientSet.PutStringParameter | acl/client_set.go:80-98 | one write of that request, whose reply and state are `Remote.Put` |
| Acl.ClientSet.IsLeader | acl/client_set.go:101-119 | one probe; the reply is `ClientSetRules.IsLeader` of the answer |
| Acl.ClientSet.Bootstrap | acl/bootstrap.go:8-24 | the returned ID, error and new state are `BootstrapSpec` |
| Acl.ClientSet.ParameterToACL | acl/sync.go:77-104 | the item and new state are `Parse` |
| Acl.ClientSet.ManageACL | acl/sync.go:107-185 | the step and new state are `Manage` |
| Acl.ClientSet.HandleRecord | acl/sync.go:61-64 | the step and new state are `ProcessRecord` |
| Acl.ClientSet.HandleNext | acl/sync.go:61-64 | handling the next record extends the run by that record |
| Acl.ClientSet.ProcessPage | acl/sync.go:58-66 | the callback on one page extends the run by the page's records, in order |
| Acl.ClientSet.ProcessPages | acl/sync.go:58-68 | every page is handled, in order; the step and new state are `Run` over all records of all pages |
| Acl.ClientSet.Sync | acl/sync.go:30-74 | the returned error and new state are `SyncSpec` |
| Scenarios.SvcAKey | acl/sync.go:79-80 | the record `acl/svc-a` has slug `svc-a` and index key `index/svc-a` |
| Scenarios.SvcASlug | acl/sync.go:79-80 | the slug of `acl/svc-a` under `acl/` is `svc-a` |
| Scenarios.CreateScenario | acl/sync.go:108-128 | `svc-a` with no ID against an empty cluster: one index read, one create without an ID, one index write of the minted ID; the cluster then holds the ACL under that ID |
| Scenarios.DefaultTypeScenario | acl/sync.go:98-101 | `svc-b` declares ID `abc` and no type: on an empty cluster it is one lookup and one create under `abc` with type `client` |
| Scenarios.UpdateScenario | acl/sync.go:170-180 | `svc-a` with ID `abc`, where a different `abc` is live: one lookup and one update under `abc`; the run goes on |

## Left out

- `NewClientSet` (acl/client_set.go:31-58): the AWS session, the Consul client, and the
  reading of the management token are library setup. The constructor only takes the
  settings and the starting state of both services.
- The command-line layer (`cmd/`): flags, environment binding, exit codes, the recurring
  loop with its sleep, log formatting and the agent token commands.
- JSON decoding: whether a payload decodes and which fields it holds is an input
  (`Types.Payload`). That includes the string-encoded `Destroy` flag.
- Pagination mechanics: the listing is given as its pages and an optional trailing
  failure. The model does not relate the listed records to `params`.
- Logging: Debug, Info, Warn and Error logging does nothing. `log.Fatalf` ends the run with
  a returned error instead of ending the process.
- Fresh IDs: the ID Consul mints (`Types.Faults.minted`) is an input that is not assumed
  to be new. A minted ID that is already live makes `Remote.Create` overwrite that entry.
- Concurrency: nothing else changes the cluster or the store during a run. Each
  service's answer is decided by the given faults and the current maps.
- ConsulBootstrap: the effect of the bootstrap on the cluster's ACL table is not modelled.
  Only the returned token ID is.
- The `Debugf` that reads `*i.Type` (acl/client_set.go:95) and the page counter
  `pageNum` (acl/sync.go:59-60) only feed logging. They have no counterpart.
- Acl.ClientSet.ProcessPages and the lemmas about runs do not model the callback's
  `lastPage` argument. It is only logged, and the callback always asks for more pages.
