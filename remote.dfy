/** How SSM and Consul answer the requests the engine makes, as functions on the
    observable state. Each appends its request to the trace. */
module Remote {
  import opened Wrappers
  import opened Types

  /** The live ACL under `id`, if the cluster has one. */
  function Lookup(acls: map<string, Acl>, id: string): Option<Acl> {
    if id in acls then Some(acls[id]) else None
  }

  /** SSM's answer to a read of `name`: the failure, the stored value, or ParameterNotFound. */
  function StoreResponse(params: map<string, string>, name: string, fault: Option<Cause>): Result<string, Cause> {
    if fault.Some? then Failure(fault.value)
    else if name in params then Success(params[name])
    else Failure(AwsError(NotFoundCode))
  }

  /** GetParameter. */
  function Get(w: World, name: string, fault: Option<Cause>): Reply<Result<string, Cause>> {
    Reply(Called(w, [SsmGet(name)]), StoreResponse(w.params, name, fault))
  }

  /** Whether SSM stores a write: no failure, and the key is new or Overwrite is set. */
  predicate PutAccepted(params: map<string, string>, input: PutInput, fault: Option<Cause>) {
    fault.None? && (input.name !in params || input.overwrite)
  }

  /** PutParameter. */
  function Put(w: World, input: PutInput, fault: Option<Cause>): (r: Reply<Option<Cause>>)
    ensures r.world.calls == w.calls + [SsmPut(input)] && r.world.acls == w.acls
    ensures r.value.None? <==> PutAccepted(w.params, input, fault)
    ensures r.world.params == (if r.value.None? then w.params[input.name := input.value] else w.params)
    ensures fault.None? && r.value.Some? ==> r.value == Some(AwsError(AlreadyExistsCode))
  {
    var w' := Called(w, [SsmPut(input)]);
    if fault.Some? then Reply(w', fault)
    else if input.name in w.params && !input.overwrite then Reply(w', Some(AwsError(AlreadyExistsCode)))
    else Reply(w'.(params := w.params[input.name := input.value]), None)
  }

  /** ACL().Info: the live ACL, or none when the ID is unknown. */
  function Info(w: World, id: string, fault: Option<Cause>): Reply<Result<Option<Acl>, Cause>> {
    Reply(Called(w, [AclInfo(id)]), if fault.Some? then Failure(fault.value) else Success(Lookup(w.acls, id)))
  }

  /** ACL().Create: stores the ACL under `id`, or under `minted` when `id` is empty,
      and answers the ID used. */
  function Create(w: World, id: string, acl: Acl, minted: string, fault: Option<Cause>): (r: Reply<Result<string, Cause>>)
    ensures r.world.calls == w.calls + [AclCreate(id, acl)] && r.world.params == w.params
    ensures r.value.Success? <==> fault.None?
    ensures r.value.Success? ==> r.value.value == (if id == "" then minted else id)
                                 && r.world.acls == w.acls[r.value.value := acl]
    ensures r.value.Failure? ==> r.world.acls == w.acls
  {
    var w' := Called(w, [AclCreate(id, acl)]);
    if fault.Some? then Reply(w', Failure(fault.value))
    else if id == "" then Reply(w'.(acls := w.acls[minted := acl]), Success(minted))
    else Reply(w'.(acls := w.acls[id := acl]), Success(id))
  }

  /** ACL().Update. */
  function Update(w: World, id: string, acl: Acl, fault: Option<Cause>): Reply<Option<Cause>> {
    var w' := Called(w, [AclUpdate(id, acl)]);
    if fault.Some? then Reply(w', fault) else Reply(w'.(acls := w.acls[id := acl]), None)
  }

  /** ACL().Destroy. */
  function Destroy(w: World, id: string, fault: Option<Cause>): Reply<Option<Cause>> {
    var w' := Called(w, [AclDestroy(id)]);
    if fault.Some? then Reply(w', fault) else Reply(w'.(acls := w.acls - {id}), None)
  }
}
