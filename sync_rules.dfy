/** The reconciliation engine as functions on the observable state: prefix
    normalisation, the slug, the parsing of one definition, the decision for one
    ACL, and a whole sync run. */
module SyncRules {
  import opened Wrappers
  import opened Types
  import Remote
  import ClientSetRules

  /** ensureTrailingSlash. */
  function EnsureTrailingSlash(s: string): (r: string)
    ensures r == "" <==> s == ""
    ensures r != "" ==> r[|r| - 1] == '/'
    ensures s <= r && |r| <= |s| + 1
    ensures s != "" && s[|s| - 1] == '/' ==> r == s
  {
    if |s| == 0 || s[|s| - 1..] == "/" then s else s + "/"
  }

  /** strings.TrimPrefix. */
  function TrimPrefix(s: string, prefix: string): (r: string)
    ensures prefix <= s ==> prefix + r == s
    ensures !(prefix <= s) ==> r == s
    ensures |r| <= |s| && s[|s| - |r|..] == r
  {
    if prefix <= s then s[|prefix|..] else s
  }

  /** The last element of strings.Split(s, "/"): what follows the last slash, or all of `s`. */
  function LastSegment(s: string): (seg: string)
    ensures '/' !in seg
    ensures |seg| <= |s| && s[|s| - |seg|..] == seg
    ensures |seg| < |s| ==> s[|s| - |seg| - 1] == '/'
  {
    if s == [] then []
    else if s[|s| - 1] == '/' then []
    else LastSegment(s[..|s| - 1]) + [s[|s| - 1]]
  }

  /** The slug of a definition parameter: the last path segment of its name
      once the definition prefix is trimmed off. */
  function Slug(name: string, definitionPrefix: string): (slug: string)
    ensures '/' !in slug
    ensures |slug| <= |name| && name[|name| - |slug|..] == slug
  {
    var rest := TrimPrefix(name, definitionPrefix);
    var seg := LastSegment(rest);
    SuffixOfSuffix(name, rest, seg);
    seg
  }

  /** A suffix of a suffix is a suffix. */
  lemma SuffixOfSuffix(s: string, t: string, u: string)
    requires |t| <= |s| && s[|s| - |t|..] == t
    requires |u| <= |t| && t[|t| - |u|..] == u
    ensures s[|s| - |u|..] == u
  {
    assert s[|s| - |u|..] == s[|s| - |t|..][|t| - |u|..];
  }

  /** The ID a decoded definition declares; absent and empty are the same. */
  function DeclaredId(d: Definition): string {
    d.id.GetOr("")
  }

  /** The type a decoded definition stands for: its own, or the default one. */
  function DeclaredType(d: Definition): (t: string)
    ensures d.aclType.GetOr("") == "" ==> t == DefaultType
    ensures d.aclType.GetOr("") != "" ==> t == d.aclType.GetOr("")
  {
    if d.aclType.GetOr("") == "" then DefaultType else d.aclType.GetOr("")
  }

  /** The name, type and rules a decoded definition asks the cluster to hold. */
  function Target(d: Definition): Acl {
    Acl(d.name.GetOr(""), DeclaredType(d), d.rules.GetOr(""))
  }

  /** The normalised item for a decoded definition once its ID is resolved. */
  function Normalise(d: Definition, id: string, slug: string): (item: AclItem)
    ensures item.id == id && item.slug == slug
    ensures item.name == d.name.GetOr("") && item.rules == d.rules.GetOr("") && item.destroy == d.destroy.GetOr(false)
    ensures item.aclType != ""
    ensures d.aclType.GetOr("") == "" ==> item.aclType == DefaultType
    ensures d.aclType.GetOr("") != "" ==> item.aclType == d.aclType.GetOr("")
    ensures item.Entry() == Target(d)
  {
    AclItem(id, d.name.GetOr(""), DeclaredType(d), d.rules.GetOr(""), d.destroy.GetOr(false), slug)
  }

  /** The value of the ID index at `key`, with a missing key read as "". */
  function IndexValue(params: map<string, string>, key: string): string {
    if key in params then params[key] else ""
  }

  /** parameterToACL: decode one definition parameter and resolve its ID. */
  function Parse(w: World, definitionPrefix: string, idPrefix: string, param: Parameter,
                 indexFault: Option<Cause>): (r: Reply<Result<AclItem, Error>>)
    ensures param.payload.Malformed? ==>
              r == Reply(w, Failure(DecodeFailed(Slug(param.name, definitionPrefix), param.name)))
    ensures param.payload.Decoded? && DeclaredId(param.payload.definition) != "" ==>
              r.world == w && r.value.Success? && r.value.value.id == DeclaredId(param.payload.definition)
    ensures param.payload.Decoded? && DeclaredId(param.payload.definition) == "" ==>
              r.world == Called(w, [SsmGet(idPrefix + Slug(param.name, definitionPrefix))])
    ensures param.payload.Decoded? && DeclaredId(param.payload.definition) == "" && indexFault.None? ==>
              r.value.Success? &&
              r.value.value.id == IndexValue(w.params, idPrefix + Slug(param.name, definitionPrefix))
    ensures param.payload.Decoded? && DeclaredId(param.payload.definition) == "" &&
            indexFault.Some? && !ClientSetRules.IsNotFound(indexFault.value) ==>
              r.value == Failure(IndexReadFailed(idPrefix + Slug(param.name, definitionPrefix), indexFault.value))
    ensures r.value.Failure? ==> r.value.error.DecodeFailed? || r.value.error.IndexReadFailed?
    ensures r.value.Success? ==>
              param.payload.Decoded? &&
              r.value.value == Normalise(param.payload.definition, r.value.value.id, Slug(param.name, definitionPrefix))
  {
    var slug := Slug(param.name, definitionPrefix);
    match param.payload
    case Malformed => Reply(w, Failure(DecodeFailed(slug, param.name)))
    case Decoded(d) =>
      if DeclaredId(d) != "" then Reply(w, Success(Normalise(d, DeclaredId(d), slug)))
      else
        var read := ReadIndex(w, idPrefix + slug, indexFault);
        match read.value
        case Failure(e) => Reply(read.world, Failure(e))
        case Success(v) => Reply(read.world, Success(Normalise(d, v, slug)))
  }

  /** The read of the ID index at `key`, a missing key being no error. */
  function ReadIndex(w: World, key: string, fault: Option<Cause>): (r: Reply<Result<string, Error>>)
    ensures r.world == Called(w, [SsmGet(key)])
    ensures fault.None? ==> r.value == Success(IndexValue(w.params, key))
    ensures fault.Some? && !ClientSetRules.IsNotFound(fault.value) ==> r.value == Failure(IndexReadFailed(key, fault.value))
    ensures r.value.Failure? ==> r.value.error.IndexReadFailed?
  {
    var read := Remote.Get(w, key, fault);
    match ClientSetRules.GetString(read.value, false)
    case Failure(e) => Reply(read.world, Failure(IndexReadFailed(key, e)))
    case Success(v) => Reply(read.world, Success(v))
  }

  /** The branch of manageACL an item takes, given the live ACL under its ID. */
  datatype Action =
    | WarnNoId          // destroy asked, but no ID to destroy by
    | CreateAndIndex    // no ID: create, then record the minted ID in the index
    | NothingToDestroy  // destroy asked, and the ID is not live
    | CreateWithId      // ID given but not live: create under that ID
    | DestroyLive       // destroy the live ACL
    | SkipMatch         // the live ACL already matches
    | UpdateLive        // overwrite the live ACL with the definition

  /** The decision tree of manageACL. */
  function Decide(item: AclItem, live: Option<Acl>): (a: Action)
    ensures a == WarnNoId <==> item.id == "" && item.destroy
    ensures a == CreateAndIndex <==> item.id == "" && !item.destroy
    ensures a == NothingToDestroy <==> item.id != "" && live.None? && item.destroy
    ensures a == CreateWithId <==> item.id != "" && live.None? && !item.destroy
    ensures a == DestroyLive <==> item.id != "" && live.Some? && item.destroy
    ensures a == SkipMatch <==> item.id != "" && live.Some? && !item.destroy && live.value == item.Entry()
    ensures a == UpdateLive <==> item.id != "" && live.Some? && !item.destroy && live.value != item.Entry()
  {
    if item.id == "" then
      if item.destroy then WarnNoId else CreateAndIndex
    else
      match live
      case None => if item.destroy then NothingToDestroy else CreateWithId
      case Some(current) =>
        if item.destroy then DestroyLive
        else if current == item.Entry() then SkipMatch
        else UpdateLive
  }

  /** The requests each action issues, and which failures stop the run. */
  function Perform(w: World, cfg: Config, item: AclItem, idPrefix: string, f: Faults, a: Action): (r: Reply<Step>)
    ensures w.calls <= r.world.calls
    ensures r.value.Fatal? ==> r.value.error.CreateFailed?
  {
    match a
    case WarnNoId => Reply(w, Continue)
    case NothingToDestroy => Reply(w, Continue)
    case SkipMatch => Reply(w, Continue)
    case CreateAndIndex =>
      var created := Remote.Create(w, "", item.Entry(), f.minted, f.create);
      (match created.value
       case Failure(e) => Reply(created.world, Fatal(CreateFailed(item.slug, e)))
       case Success(id) =>
         // the outcome of the index write is not looked at
         var put := Remote.Put(created.world, ClientSetRules.PutInputFor(cfg, idPrefix + item.slug, id), f.put);
         Reply(put.world, Continue))
    case CreateWithId =>
      var created := Remote.Create(w, item.id, item.Entry(), f.minted, f.create);
      (match created.value
       case Failure(e) => Reply(created.world, Fatal(CreateFailed(item.slug, e)))
       case Success(_) => Reply(created.world, Continue))
    case DestroyLive => Reply(Remote.Destroy(w, item.id, f.destroy).world, Continue)
    case UpdateLive => Reply(Remote.Update(w, item.id, item.Entry(), f.update).world, Continue)
  }

  /** manageACL: reconcile one normalised item against the cluster. */
  function Manage(w: World, cfg: Config, item: AclItem, idPrefix: string, f: Faults): (r: Reply<Step>)
    ensures w.calls <= r.world.calls
    ensures r.value.Fatal? ==> r.value.error.CreateFailed? || r.value.error.InfoFailed?
  {
    if item.id == "" then Perform(w, cfg, item, idPrefix, f, Decide(item, None))
    else
      var info := Remote.Info(w, item.id, f.info);
      match info.value
      case Failure(e) => Reply(info.world, Fatal(InfoFailed(item.slug, e)))
      case Success(live) => Perform(info.world, cfg, item, idPrefix, f, Decide(item, live))
  }

  /** One iteration of the page loop: parse one parameter, then reconcile it. */
  function ProcessRecord(w: World, cfg: Config, definitionPrefix: string, idPrefix: string,
                         param: Parameter, f: Faults): (r: Reply<Step>)
    ensures w.calls <= r.world.calls
  {
    var parsed := Parse(w, definitionPrefix, idPrefix, param, f.indexRead);
    match parsed.value
    case Failure(e) => Reply(parsed.world, Fatal(e))
    case Success(item) => Manage(parsed.world, cfg, item, idPrefix, f)
  }

  /** The records of all pages, in the order the store returned them. */
  function Flatten(pages: seq<seq<Parameter>>): (records: seq<Parameter>)
    ensures pages == [] ==> records == []
    ensures |pages| == 1 ==> records == pages[0]
  {
    if pages == [] then [] else Flatten(pages[..|pages| - 1]) + pages[|pages| - 1]
  }

  /** Handles `records` in order; the i-th meets the answers `faults(i)`, and the
      first fatal step ends the run. */
  function Run(w: World, cfg: Config, definitionPrefix: string, idPrefix: string,
               records: seq<Parameter>, faults: nat -> Faults): (r: Reply<Step>)
    ensures w.calls <= r.world.calls
    decreases |records|
  {
    if records == [] then Reply(w, Continue)
    else
      var before := Run(w, cfg, definitionPrefix, idPrefix, records[..|records| - 1], faults);
      if before.value.Fatal? then before
      else ProcessRecord(before.world, cfg, definitionPrefix, idPrefix, records[|records| - 1], faults(|records| - 1))
  }

  /** The listing request of a run. */
  function ListRequest(definitionPrefix: string, pageSize: int): (request: ListInput)
    ensures request.path == definitionPrefix && request.recursive && request.withDecryption
    ensures request.maxResults.Some? <==> pageSize > 0
    ensures request.maxResults.Some? ==> request.maxResults.value == pageSize
  {
    ListInput(definitionPrefix, true, true, if pageSize > 0 then Some(pageSize) else None)
  }

  /** Sync: one full run over all definitions. */
  function SyncSpec(w: World, cfg: Config, input: SyncInput, self: Result<SelfInfo, Cause>,
                    listing: Listing, faults: nat -> Faults): (r: Reply<Option<Error>>)
    // an empty definition prefix is refused before anything is asked of either service
    ensures EnsureTrailingSlash(input.definitionPrefix) == "" ==> r == Reply(w, Some(DefinitionPrefixRequired))
    // not the leader: success, and nothing but the probe was asked
    ensures EnsureTrailingSlash(input.definitionPrefix) != "" && input.onlyIfConsulLeader &&
              ClientSetRules.IsLeader(self) == Success(false) ==>
              r == Reply(Called(w, [AgentSelf]), None)
    // the probe failed: an error, and nothing but the probe was asked
    ensures EnsureTrailingSlash(input.definitionPrefix) != "" && input.onlyIfConsulLeader &&
            ClientSetRules.IsLeader(self).Failure? ==>
              r == Reply(Called(w, [AgentSelf]), Some(LeaderCheckFailed(ClientSetRules.IsLeader(self).error)))
    // otherwise the listing is requested, with a page size only when one above zero is given
    ensures EnsureTrailingSlash(input.definitionPrefix) != "" &&
            (!input.onlyIfConsulLeader || ClientSetRules.IsLeader(self) == Success(true)) ==>
              var n := if input.onlyIfConsulLeader then |w.calls| + 1 else |w.calls|;
              && |r.world.calls| > n
              && r.world.calls[n] == SsmList(ListInput(EnsureTrailingSlash(input.definitionPrefix), true, true,
                                                       if input.pageSize > 0 then Some(input.pageSize) else None))
    // ... and then the records of every page are handled in order; a fatal step is the
    // error, and otherwise a listing failure is, after the records already delivered
    ensures EnsureTrailingSlash(input.definitionPrefix) != "" &&
            (!input.onlyIfConsulLeader || ClientSetRules.IsLeader(self) == Success(true)) ==>
              var definitionPrefix := EnsureTrailingSlash(input.definitionPrefix);
              var probed := if input.onlyIfConsulLeader then Called(w, [AgentSelf]) else w;
              var run := Run(Called(probed, [SsmList(ListRequest(definitionPrefix, input.pageSize))]), cfg,
                             definitionPrefix, EnsureTrailingSlash(input.idPrefix), Flatten(listing.pages), faults);
              && r.world == run.world
              && (run.value.Fatal? ==> r.value == Some(run.value.error))
              && (run.value.Continue? && listing.failure.Some? ==>
                    r.value == Some(ListFailed(definitionPrefix, listing.failure.value)))
              && (r.value.None? <==> run.value.Continue? && listing.failure.None?)
  {
    var definitionPrefix := EnsureTrailingSlash(input.definitionPrefix);
    var idPrefix := EnsureTrailingSlash(input.idPrefix);
    if definitionPrefix == "" then Reply(w, Some(DefinitionPrefixRequired))
    else
      var probed := if input.onlyIfConsulLeader then Called(w, [AgentSelf]) else w;
      var leader := if input.onlyIfConsulLeader then ClientSetRules.IsLeader(self) else Success(true);
      match leader
      case Failure(e) => Reply(probed, Some(LeaderCheckFailed(e)))
      case Success(isLeader) =>
        if !isLeader then Reply(probed, None)
        else
          var listed := Called(probed, [SsmList(ListRequest(definitionPrefix, input.pageSize))]);
          var run := Run(listed, cfg, definitionPrefix, idPrefix, Flatten(listing.pages), faults);
          if run.value.Fatal? then Reply(run.world, Some(run.value.error))
          else if listing.failure.Some? then Reply(run.world, Some(ListFailed(definitionPrefix, listing.failure.value)))
          else Reply(run.world, None)
  }
}
