/** The ACL bootstrap: request the first management token, then store it. */
module BootstrapRules {
  import opened Wrappers
  import opened Types
  import Remote
  import ClientSetRules

  /** Bootstrap, given the cluster's answer to the bootstrap request and the
      failure, if any, of the parameter write. */
  function BootstrapSpec(w: World, cfg: Config, consulTokenParam: string, boot: Result<string, Cause>,
                         putFault: Option<Cause>): (r: Reply<BootResult>)
    // an empty parameter name is refused before the cluster is asked
    ensures consulTokenParam == "" ==> r == Reply(w, BootResult("", Some(TokenParamEmpty)))
    // a failed bootstrap returns no ID and writes nothing
    ensures consulTokenParam != "" && boot.Failure? ==>
              r == Reply(Called(w, [AclBootstrap]), BootResult("", Some(BootstrapFailed(boot.error))))
    // once bootstrapped, the ID is returned whatever the write does
    ensures consulTokenParam != "" && boot.Success? ==>
              var input := ClientSetRules.PutInputFor(cfg, consulTokenParam, boot.value);
              && r.value.id == boot.value
              && r.world.calls == w.calls + [AclBootstrap, SsmPut(input)]
              && r.world.acls == w.acls
              && (r.value.error.None? <==> Remote.PutAccepted(w.params, input, putFault))
    // a failed write comes back as an error next to the ID, and changes nothing
    ensures consulTokenParam != "" && boot.Success? && r.value.error.Some? ==>
              r.value.error.value.SaveTokenFailed? && r.value.error.value.param == consulTokenParam &&
              r.world.params == w.params
    // full success: the store holds the ID under the parameter
    ensures r.value.error.None? ==>
              consulTokenParam != "" && boot.Success? &&
              r.world.params == w.params[consulTokenParam := r.value.id]
  {
    if consulTokenParam == "" then Reply(w, BootResult("", Some(TokenParamEmpty)))
    else
      var asked := Called(w, [AclBootstrap]);
      match boot
      case Failure(e) => Reply(asked, BootResult("", Some(BootstrapFailed(e))))
      case Success(id) =>
        var put := Remote.Put(asked, ClientSetRules.PutInputFor(cfg, consulTokenParam, id), putFault);
        match put.value
        case Some(e) => Reply(put.world, BootResult(id, Some(SaveTokenFailed(consulTokenParam, e))))
        case None => Reply(put.world, BootResult(id, None))
  }
}
