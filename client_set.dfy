/** The client set: the handles on SSM and Consul, with the operations of the
    ACL tooling written as methods that change the two services' state. */
module Acl {
  import opened Wrappers
  import opened Types
  import Remote
  import ClientSetRules
  import SyncRules
  import BootstrapRules
  import SyncProperties

  class ClientSet {
    /** The settings every parameter write uses. */
    const config: Config
    /** The cluster's ACL table, ID -> ACL. */
    var acls: map<string, Acl>
    /** The parameter store, name -> value. */
    var params: map<string, string>
    /** The requests issued to either service so far. */
    ghost var calls: seq<Call>

    /** The observable state. */
    ghost function State(): World
      reads this
    {
      World(acls, params, calls)
    }

    /** The settings part of NewClientSet, over given service states. */
    constructor (input: Config, clusterAcls: map<string, Acl>, store: map<string, string>)
      ensures config == input && State() == World(clusterAcls, store, [])
    {
      config := input;
      acls := clusterAcls;
      params := store;
      calls := [];
    }

    // ---- the service requests ------------------------------------------------

    /** SSM GetParameter. */
    method SsmGetParameter(name: string, fault: Option<Cause>) returns (resp: Result<string, Cause>)
      modifies this
      ensures Reply(State(), resp) == Remote.Get(old(State()), name, fault)
    {
      calls := calls + [SsmGet(name)];
      if fault.Some? {
        resp := Failure(fault.value);
      } else if name in params {
        resp := Success(params[name]);
      } else {
        resp := Failure(AwsError(NotFoundCode));
      }
    }

    /** SSM PutParameter. */
    method SsmPutParameter(input: PutInput, fault: Option<Cause>) returns (err: Option<Cause>)
      modifies this
      ensures Reply(State(), err) == Remote.Put(old(State()), input, fault)
    {
      calls := calls + [SsmPut(input)];
      if fault.Some? {
        err := fault;
      } else if input.name in params && !input.overwrite {
        err := Some(AwsError(AlreadyExistsCode));
      } else {
        params := params[input.name := input.value];
        err := None;
      }
    }

    /** Consul ACL().Info. */
    method ConsulInfo(id: string, fault: Option<Cause>) returns (resp: Result<Option<Acl>, Cause>)
      modifies this
      ensures Reply(State(), resp) == Remote.Info(old(State()), id, fault)
    {
      calls := calls + [AclInfo(id)];
      if fault.Some? {
        resp := Failure(fault.value);
      } else if id in acls {
        resp := Success(Some(acls[id]));
      } else {
        resp := Success(None);
      }
    }

    /** Consul ACL().Create; the cluster picks `minted` when `id` is empty. */
    method ConsulCreate(id: string, acl: Acl, minted: string, fault: Option<Cause>) returns (resp: Result<string, Cause>)
      modifies this
      ensures Reply(State(), resp) == Remote.Create(old(State()), id, acl, minted, fault)
    {
      calls := calls + [AclCreate(id, acl)];
      if fault.Some? {
        resp := Failure(fault.value);
      } else {
        var assignedId := if id == "" then minted else id;
        acls := acls[assignedId := acl];
        resp := Success(assignedId);
      }
    }

    /** Consul ACL().Update. */
    method ConsulUpdate(id: string, acl: Acl, fault: Option<Cause>) returns (err: Option<Cause>)
      modifies this
      ensures Reply(State(), err) == Remote.Update(old(State()), id, acl, fault)
    {
      calls := calls + [AclUpdate(id, acl)];
      err := fault;
      if fault.None? {
        acls := acls[id := acl];
      }
    }

    /** Consul ACL().Destroy. */
    method ConsulDestroy(id: string, fault: Option<Cause>) returns (err: Option<Cause>)
      modifies this
      ensures Reply(State(), err) == Remote.Destroy(old(State()), id, fault)
    {
      calls := calls + [AclDestroy(id)];
      err := fault;
      if fault.None? {
        acls := acls - {id};
      }
    }

    /** Consul Agent().Self(), answering `answer`. */
    method ConsulSelf(answer: Result<SelfInfo, Cause>) returns (resp: Result<SelfInfo, Cause>)
      modifies this
      ensures resp == answer && State() == Called(old(State()), [AgentSelf])
    {
      calls := calls + [AgentSelf];
      resp := answer;
    }

    /** Consul ACL().Bootstrap(), answering `answer`. */
    method ConsulBootstrap(answer: Result<string, Cause>) returns (resp: Result<string, Cause>)
      modifies this
      ensures resp == answer && State() == Called(old(State()), [AclBootstrap])
    {
      calls := calls + [AclBootstrap];
      resp := answer;
    }

    // ---- client_set.go ---------------------------------------------------------

    /** GetStringParameter. */
    method GetStringParameter(name: string, failNotFound: bool, fault: Option<Cause>) returns (r: Result<string, Cause>)
      modifies this
      ensures State() == Called(old(State()), [SsmGet(name)])
      ensures r == ClientSetRules.GetString(Remote.StoreResponse(old(params), name, fault), failNotFound)
      ensures fault.None? && !failNotFound ==> r == Success(if name in old(params) then old(params)[name] else "")
    {
      var resp := SsmGetParameter(name, fault);
      r := ClientSetRules.GetString(resp, failNotFound);
    }

    /** The request PutStringParameter sends, built field by field. */
    method BuildPutInput(name: string, value: string) returns (input: PutInput)
      ensures input == ClientSetRules.PutInputFor(config, name, value)
      ensures input.name == name && input.value == value && input.overwrite == config.overwrite
      ensures input.paramType == "String" <==> config.insecure
      ensures input.paramType == "SecureString" <==> !config.insecure
      ensures input.keyId.Some? <==> config.kmsKeyID != ""
      ensures input.keyId.Some? ==> input.keyId.value == config.kmsKeyID
    {
      input := PutInput(name, value, config.overwrite, "", None);
      if config.insecure {
        input := input.(paramType := "String");
      } else {
        input := input.(paramType := "SecureString");
      }
      if config.kmsKeyID != "" {
        input := input.(keyId := Some(config.kmsKeyID));
      }
    }

    /** PutStringParameter. */
    method PutStringParameter(name: string, value: string, fault: Option<Cause>) returns (err: Option<Cause>)
      modifies this
      ensures Reply(State(), err) == Remote.Put(old(State()), ClientSetRules.PutInputFor(config, name, value), fault)
    {
      var input := BuildPutInput(name, value);
      err := SsmPutParameter(input, fault);
    }

    /** isLeader. */
    method IsLeader(answer: Result<SelfInfo, Cause>) returns (r: Result<bool, LeaderError>)
      modifies this
      ensures State() == Called(old(State()), [AgentSelf])
      ensures r == ClientSetRules.IsLeader(answer)
    {
      var resp := ConsulSelf(answer);
      r := ClientSetRules.IsLeader(resp);
    }

    // ---- bootstrap.go ----------------------------------------------------------

    /** Bootstrap: returns the new token ID, with an error when it could not be stored. */
    method Bootstrap(consulTokenParam: string, answer: Result<string, Cause>, putFault: Option<Cause>)
      returns (id: string, err: Option<Error>)
      modifies this
      ensures Reply(State(), BootResult(id, err)) ==
              BootstrapRules.BootstrapSpec(old(State()), config, consulTokenParam, answer, putFault)
    {
      if consulTokenParam == "" {
        return "", Some(TokenParamEmpty);
      }
      var resp := ConsulBootstrap(answer);
      if resp.Failure? {
        return "", Some(BootstrapFailed(resp.error));
      }
      id := resp.value;
      var putErr := PutStringParameter(consulTokenParam, id, putFault);
      if putErr.Some? {
        return id, Some(SaveTokenFailed(consulTokenParam, putErr.value));
      }
      return id, None;
    }

    // ---- sync.go ---------------------------------------------------------------

    /** parameterToACL: fills the item in step by step, as the source does. */
    method ParameterToACL(param: Parameter, definitionPrefix: string, idPrefix: string, indexFault: Option<Cause>)
      returns (r: Result<AclItem, Error>)
      modifies this
      ensures Reply(State(), r) == SyncRules.Parse(old(State()), definitionPrefix, idPrefix, param, indexFault)
    {
      var acl := AclItem("", "", "", "", false, "");
      acl := acl.(slug := SyncRules.LastSegment(SyncRules.TrimPrefix(param.name, definitionPrefix)));
      match param.payload {
        case Malformed =>
          return Failure(DecodeFailed(acl.slug, param.name));
        case Decoded(d) =>
          acl := acl.(id := d.id.GetOr(""), name := d.name.GetOr(""), aclType := d.aclType.GetOr(""),
                      rules := d.rules.GetOr(""), destroy := d.destroy.GetOr(false));
      }
      if acl.id == "" {
        var idParam := idPrefix + acl.slug;
        var val := GetStringParameter(idParam, false, indexFault);
        match val {
          case Failure(e) =>
            return Failure(IndexReadFailed(idParam, e));
          case Success(v) =>
            acl := acl.(id := v);
        }
      }
      if acl.aclType == "" {
        acl := acl.(aclType := DefaultType);
      }
      return Success(acl);
    }

    /** manageACL: reconciles one item with the cluster. */
    method ManageACL(acl: AclItem, idPrefix: string, f: Faults) returns (step: Step)
      modifies this
      ensures Reply(State(), step) == SyncRules.Manage(old(State()), config, acl, idPrefix, f)
    {
      if acl.id == "" {
        if acl.destroy {
          // nothing to destroy by: only a warning
          return Continue;
        }
        var created := ConsulCreate("", acl.Entry(), f.minted, f.create);
        if created.Failure? {
          return Fatal(CreateFailed(acl.slug, created.error));
        }
        // the write of the new ID is not checked
        var ignored := PutStringParameter(idPrefix + acl.slug, created.value, f.put);
        return Continue;
      }
      var current := ConsulInfo(acl.id, f.info);
      if current.Failure? {
        return Fatal(InfoFailed(acl.slug, current.error));
      }
      match current.value {
        case None =>
          if !acl.destroy {
            var created := ConsulCreate(acl.id, acl.Entry(), f.minted, f.create);
            if created.Failure? {
              return Fatal(CreateFailed(acl.slug, created.error));
            }
          }
        case Some(live) =>
          if acl.destroy {
            var ignored := ConsulDestroy(acl.id, f.destroy);
          } else if live.name == acl.name && live.aclType == acl.aclType && live.rules == acl.rules {
            // matches: skip
          } else {
            var ignored := ConsulUpdate(acl.id, acl.Entry(), f.update);
          }
      }
      return Continue;
    }

    /** Sync: one run over every definition parameter, page by page. */
    method Sync(input: SyncInput, leaderAnswer: Result<SelfInfo, Cause>, listing: Listing, faults: nat -> Faults)
      returns (err: Option<Error>)
      modifies this
      ensures Reply(State(), err) == SyncRules.SyncSpec(old(State()), config, input, leaderAnswer, listing, faults)
    {
      var definitionPrefix := SyncRules.EnsureTrailingSlash(input.definitionPrefix);
      var idPrefix := SyncRules.EnsureTrailingSlash(input.idPrefix);
      if definitionPrefix == "" {
        return Some(DefinitionPrefixRequired);
      }
      if input.onlyIfConsulLeader {
        var isLeader := IsLeader(leaderAnswer);
        if isLeader.Failure? {
          return Some(LeaderCheckFailed(isLeader.error));
        }
        if !isLeader.value {
          // not the leader: nothing to do
          return None;
        }
      }
      var request := ListInput(definitionPrefix, true, true, None);
      if input.pageSize > 0 {
        request := request.(maxResults := Some(input.pageSize));
      }
      calls := calls + [SsmList(request)];
      var step := ProcessPages(listing.pages, definitionPrefix, idPrefix, faults);
      if step.Fatal? {
        // the source ends the process here
        return Some(step.error);
      }
      if listing.failure.Some? {
        return Some(ListFailed(definitionPrefix, listing.failure.value));
      }
      return None;
    }

    /** One iteration of the page callback's loop: parse a parameter, then reconcile it. */
    method HandleRecord(param: Parameter, definitionPrefix: string, idPrefix: string, f: Faults) returns (step: Step)
      modifies this
      ensures Reply(State(), step) == SyncRules.ProcessRecord(old(State()), config, definitionPrefix, idPrefix, param, f)
    {
      var acl := ParameterToACL(param, definitionPrefix, idPrefix, f.indexRead);
      if acl.Failure? {
        return Fatal(acl.error);
      }
      step := ManageACL(acl.value, idPrefix, f);
    }

    /** HandleRecord on the record after `seen`, by a run that started in `start`. */
    method HandleNext(ghost start: World, ghost seen: seq<Parameter>, param: Parameter,
                      definitionPrefix: string, idPrefix: string, f: Faults, ghost faults: nat -> Faults)
      returns (step: Step)
      requires f == faults(|seen|)
      requires SyncRules.Run(start, config, definitionPrefix, idPrefix, seen, faults) == Reply(State(), Continue)
      modifies this
      ensures Reply(State(), step) == SyncRules.Run(start, config, definitionPrefix, idPrefix, seen + [param], faults)
    {
      SyncProperties.RunStep(start, config, definitionPrefix, idPrefix, seen, param, faults);
      step := HandleRecord(param, definitionPrefix, idPrefix, f);
    }

    /** The page callback: handles the records of one page in order, after the records
        `done` of the earlier pages; a fatal step ends it. */
    method ProcessPage(ghost start: World, ghost done: seq<Parameter>, page: seq<Parameter>, first: nat,
                       definitionPrefix: string, idPrefix: string, faults: nat -> Faults)
      returns (step: Step)
      requires first == |done|
      requires SyncRules.Run(start, config, definitionPrefix, idPrefix, done, faults) == Reply(State(), Continue)
      modifies this
      ensures Reply(State(), step) == SyncRules.Run(start, config, definitionPrefix, idPrefix, done + page, faults)
    {
      ghost var all := done + page;
      SyncProperties.PrefixOfAppend(done, page);
      var i := 0;
      while i < |page|
        invariant 0 <= i <= |page|
        invariant SyncRules.Run(start, config, definitionPrefix, idPrefix, all[..first + i], faults) == Reply(State(), Continue)
      {
        SyncProperties.PrefixStep(all, first + i);
        step := HandleNext(start, all[..first + i], page[i], definitionPrefix, idPrefix, faults(first + i), faults);
        if step.Fatal? {
          SyncProperties.PrefixSplit(all, first + i + 1);
          SyncProperties.RunStopsAtFatal(start, config, definitionPrefix, idPrefix, all[..first + i + 1], all[first + i + 1..], faults);
          return;
        }
        i := i + 1;
      }
      assert all[..first + i] == all;
      return Continue;
    }

    /** The page callback applied to every page in turn; it always asks for the next page,
        and a fatal step ends everything. */
    method ProcessPages(pages: seq<seq<Parameter>>, definitionPrefix: string, idPrefix: string, faults: nat -> Faults)
      returns (step: Step)
      modifies this
      ensures Reply(State(), step) == SyncRules.Run(old(State()), config, definitionPrefix, idPrefix, SyncRules.Flatten(pages), faults)
    {
      ghost var start := State();
      var pageNum := 0;
      var n := 0;  // the ordinal of the next record
      while pageNum < |pages|
        invariant 0 <= pageNum <= |pages|
        invariant n == |SyncRules.Flatten(pages[..pageNum])|
        invariant SyncRules.Run(start, config, definitionPrefix, idPrefix, SyncRules.Flatten(pages[..pageNum]), faults)
                  == Reply(State(), Continue)
      {
        ghost var done := SyncRules.Flatten(pages[..pageNum]);
        SyncProperties.FlattenNext(pages, pageNum);
        step := ProcessPage(start, done, pages[pageNum], n, definitionPrefix, idPrefix, faults);
        if step.Fatal? {
          SyncProperties.RunStopsAtFatal(start, config, definitionPrefix, idPrefix, done + pages[pageNum],
                                         SyncRules.Flatten(pages[pageNum + 1..]), faults);
          return;
        }
        n := n + |pages[pageNum]|;
        pageNum := pageNum + 1;
      }
      assert pages[..pageNum] == pages;
      return Continue;
    }
  }
}
