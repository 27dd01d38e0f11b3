/** The entities of the ACL sync engine and of the two services it talks to. */
module Types {
  import opened Wrappers

  /** The AWS error code SSM gives for a read of a missing parameter. */
  const NotFoundCode := "ParameterNotFound"
  /** The AWS error code SSM gives for a write to an existing parameter without Overwrite. */
  const AlreadyExistsCode := "ParameterAlreadyExists"
  /** The ACL type a definition gets when it names none. */
  const DefaultType := "client"

  /** One ACL as the Consul cluster stores it under its ID. */
  datatype Acl = Acl(name: string, aclType: string, rules: string)

  /** The normalised form of one ACL definition (the source's aclItem). */
  datatype AclItem = AclItem(id: string, name: string, aclType: string, rules: string,
                             destroy: bool, slug: string)
  {
    /** The name, type and rules the definition asks the cluster to hold. */
    function Entry(): Acl {
      Acl(name, aclType, rules)
    }
  }

  /** A decoded definition record; each field may be absent from the JSON payload. */
  datatype Definition = Definition(id: Option<string>, name: Option<string>, aclType: Option<string>,
                                   rules: Option<string>, destroy: Option<bool>)

  /** The payload of a definition parameter, as the JSON decoder sees it. */
  datatype Payload = Malformed | Decoded(definition: Definition)

  /** One parameter returned by the listing of the definition prefix. */
  datatype Parameter = Parameter(name: string, payload: Payload)

  /** An error returned by an AWS or Consul call. */
  datatype Cause = AwsError(code: string) | OtherError(message: string)

  /** Why the leadership probe failed. */
  datatype LeaderError = SelfFailed(cause: Cause) | StatsUnparsable | ConsulStatsUnparsable

  /** Every error the engine reports; the Fatal ones are those the source ends the process on. */
  datatype Error =
    | DefinitionPrefixRequired
    | LeaderCheckFailed(leaderCause: LeaderError)
    | ListFailed(prefix: string, cause: Cause)
    | DecodeFailed(slug: string, parameterName: string)
    | IndexReadFailed(idParam: string, cause: Cause)
    | CreateFailed(slug: string, cause: Cause)
    | InfoFailed(slug: string, cause: Cause)
    | TokenParamEmpty
    | BootstrapFailed(cause: Cause)
    | SaveTokenFailed(param: string, cause: Cause)
  {
    /** The errors reported with log.Fatalf in the source. */
    predicate Fatal() {
      DecodeFailed? || IndexReadFailed? || CreateFailed? || InfoFailed?
    }
  }

  /** The request PutStringParameter sends to SSM. */
  datatype PutInput = PutInput(name: string, value: string, overwrite: bool,
                               paramType: string, keyId: Option<string>)

  /** The request that lists the definition parameters. */
  datatype ListInput = ListInput(path: string, recursive: bool, withDecryption: bool,
                                 maxResults: Option<int>)

  /** One request issued to SSM or to Consul. */
  datatype Call =
    | SsmGet(name: string)
    | SsmPut(input: PutInput)
    | SsmList(listInput: ListInput)
    | AgentSelf
    | AclInfo(id: string)
    | AclCreate(id: string, acl: Acl)
    | AclUpdate(id: string, acl: Acl)
    | AclDestroy(id: string)
    | AclBootstrap
  {
    /** Requests that change the cluster's ACL table. */
    predicate Mutation() {
      AclCreate? || AclUpdate? || AclDestroy?
    }
  }

  /** The client settings that shape every parameter write. */
  datatype Config = Config(kmsKeyID: string, overwrite: bool, insecure: bool)

  /** The arguments of one sync run. */
  datatype SyncInput = SyncInput(definitionPrefix: string, idPrefix: string, pageSize: int,
                                 onlyIfConsulLeader: bool)

  /** What the services answer while one definition record is handled: a failure
      for each call that may be made, and the ID the cluster mints on a create without an ID. */
  datatype Faults = Faults(indexRead: Option<Cause>, info: Option<Cause>, create: Option<Cause>,
                           minted: string, put: Option<Cause>, update: Option<Cause>,
                           destroy: Option<Cause>)

  /** The listing of the definition prefix: the pages fetched, then the failure
      of the next fetch, if one failed. */
  datatype Listing = Listing(pages: seq<seq<Parameter>>, failure: Option<Cause>)

  /** A JSON value of the agent's /agent/self answer. */
  datatype Value = Str(s: string) | Obj(fields: map<string, Value>) | OtherValue

  /** The agent's /agent/self answer: section -> key -> value. */
  type SelfInfo = map<string, map<string, Value>>

  /** The observable state: the cluster's ACL table, the parameter store,
      and the requests issued so far. */
  datatype World = World(acls: map<string, Acl>, params: map<string, string>, calls: seq<Call>)

  /** A new state, with what a call answered. */
  datatype Reply<T> = Reply(world: World, value: T)

  /** How handling one definition record ends: on to the next, or a fatal stop. */
  datatype Step = Continue | Fatal(error: Error)

  /** What Bootstrap returns: the token ID, and an error. */
  datatype BootResult = BootResult(id: string, error: Option<Error>)

  /** `w` after it has issued the requests `cs`. */
  function Called(w: World, cs: seq<Call>): World {
    w.(calls := w.calls + cs)
  }
}
