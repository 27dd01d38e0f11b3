/** What reconciling one definition record guarantees: convergence, idempotence,
    the authority of a declared ID, the creation without one, and which failures
    end a run. */
module ReconcileProperties {
  import opened Wrappers
  import opened Types
  import Remote
  import ClientSetRules
  import opened SyncRules
  import SyncProperties

  /** The answers to a record on which nothing fails; `minted` is the ID Consul assigns. */
  function NoFaults(minted: string): Faults {
    Faults(None, None, None, minted, None, None, None)
  }

  /** Where the ID index keeps the ID of a definition parameter. */
  function IndexKey(param: Parameter, definitionPrefix: string, idPrefix: string): string {
    idPrefix + Slug(param.name, definitionPrefix)
  }

  /** The ID a decoded definition resolves to when the index answers: the declared one,
      or else what the index holds ("" when it holds nothing). */
  function ResolvedId(params: map<string, string>, d: Definition, key: string): string {
    if DeclaredId(d) != "" then DeclaredId(d) else IndexValue(params, key)
  }

  /** The index read parsing issues: one exactly when no ID is declared. */
  function IndexReads(d: Definition, key: string): seq<Call> {
    if DeclaredId(d) == "" then [SsmGet(key)] else []
  }

  /** `after` extends `before` by requests that change neither service. */
  predicate OnlyReads(before: seq<Call>, after: seq<Call>) {
    before <= after && forall i | |before| <= i < |after| :: !after[i].Mutation()
  }

  /** manageACL's decision tree, leaf by leaf: the exact requests, the new ACL table and
      parameter store, and whether the run goes on. */
  lemma ManageOutcomes(w: World, cfg: Config, item: AclItem, idPrefix: string, f: Faults)
    // no ID, destroy: nothing is asked of either service
    ensures var r := Manage(w, cfg, item, idPrefix, f);
            item.id == "" && item.destroy ==> r == Reply(w, Continue)
    // no ID: one create without an ID, fatal when it fails ...
    ensures var r := Manage(w, cfg, item, idPrefix, f);
            item.id == "" && !item.destroy && f.create.Some? ==>
              r == Reply(Called(w, [AclCreate("", item.Entry())]), Fatal(CreateFailed(item.slug, f.create.value)))
    // ... and otherwise one write of the minted ID at idPrefix + slug, whose failure is ignored
    ensures var r := Manage(w, cfg, item, idPrefix, f);
            item.id == "" && !item.destroy && f.create.None? ==>
              var input := ClientSetRules.PutInputFor(cfg, idPrefix + item.slug, f.minted);
              && r.value == Continue
              && r.world.calls == w.calls + [AclCreate("", item.Entry()), SsmPut(input)]
              && r.world.acls == w.acls[f.minted := item.Entry()]
              && r.world.params == (if Remote.PutAccepted(w.params, input, f.put)
                                    then w.params[idPrefix + item.slug := f.minted] else w.params)
    // an ID: one info lookup first, fatal when it fails
    ensures var r := Manage(w, cfg, item, idPrefix, f);
            item.id != "" && f.info.Some? ==>
              r == Reply(Called(w, [AclInfo(item.id)]), Fatal(InfoFailed(item.slug, f.info.value)))
    // an ID that is not live: destroy does nothing ...
    ensures var r := Manage(w, cfg, item, idPrefix, f);
            item.id != "" && f.info.None? && item.id !in w.acls && item.destroy ==>
              r == Reply(Called(w, [AclInfo(item.id)]), Continue)
    // ... and otherwise one create under that same ID, with no index write
    ensures var r := Manage(w, cfg, item, idPrefix, f);
            item.id != "" && f.info.None? && item.id !in w.acls && !item.destroy ==>
              && r.world.calls == w.calls + [AclInfo(item.id), AclCreate(item.id, item.Entry())]
              && r.world.params == w.params
              && r.world.acls == (if f.create.None? then w.acls[item.id := item.Entry()] else w.acls)
              && r.value == (if f.create.None? then Continue else Fatal(CreateFailed(item.slug, f.create.value)))
    // a live ID: destroy removes it, and its failure does not stop the run
    ensures var r := Manage(w, cfg, item, idPrefix, f);
            item.id != "" && f.info.None? && item.id in w.acls && item.destroy ==>
              && r.value == Continue
              && r.world.calls == w.calls + [AclInfo(item.id), AclDestroy(item.id)]
              && r.world.params == w.params
              && r.world.acls == (if f.destroy.None? then w.acls - {item.id} else w.acls)
    // a live ID with the same name, type and rules: no change
    ensures var r := Manage(w, cfg, item, idPrefix, f);
            item.id != "" && f.info.None? && item.id in w.acls && !item.destroy && w.acls[item.id] == item.Entry() ==>
              r == Reply(Called(w, [AclInfo(item.id)]), Continue)
    // a live ID that differs: one update under the same ID, whose failure does not stop the run
    ensures var r := Manage(w, cfg, item, idPrefix, f);
            item.id != "" && f.info.None? && item.id in w.acls && !item.destroy && w.acls[item.id] != item.Entry() ==>
              && r.value == Continue
              && r.world.calls == w.calls + [AclInfo(item.id), AclUpdate(item.id, item.Entry())]
              && r.world.params == w.params
              && r.world.acls == (if f.update.None? then w.acls[item.id := item.Entry()] else w.acls)
  {
  }

  /** With the index answering, parsing yields the normalised item under the resolved ID,
      after at most the one index read. */
  lemma ParseResolves(w: World, definitionPrefix: string, idPrefix: string, param: Parameter, indexFault: Option<Cause>)
    requires param.payload.Decoded? && (indexFault.None? || DeclaredId(param.payload.definition) != "")
    ensures var d := param.payload.definition;
            var key := IndexKey(param, definitionPrefix, idPrefix);
            var r := Parse(w, definitionPrefix, idPrefix, param, indexFault);
            && r.world == Called(w, IndexReads(d, key))
            && r.value == Success(Normalise(d, ResolvedId(w.params, d, key), Slug(param.name, definitionPrefix)))
  {
    var d := param.payload.definition;
    if DeclaredId(d) != "" {
      assert w.calls + [] == w.calls;
    }
  }

  /** With the index answering, a record is the reconciliation of its normalised item. */
  lemma RecordIsManage(w: World, cfg: Config, definitionPrefix: string, idPrefix: string, param: Parameter, f: Faults)
    requires param.payload.Decoded? && (f.indexRead.None? || DeclaredId(param.payload.definition) != "")
    ensures var d := param.payload.definition;
            var key := IndexKey(param, definitionPrefix, idPrefix);
            ProcessRecord(w, cfg, definitionPrefix, idPrefix, param, f)
            == Manage(Called(w, IndexReads(d, key)), cfg,
                      Normalise(d, ResolvedId(w.params, d, key), Slug(param.name, definitionPrefix)), idPrefix, f)
  {
    ParseResolves(w, definitionPrefix, idPrefix, param, f.indexRead);
  }

  /** Convergence: a definition not marked for destruction is live with its name, type
      and rules after one reconciliation that meets no cluster failure; the ID is the
      resolved one, or the one Consul mints when there is none. */
  lemma RecordConverges(w: World, cfg: Config, definitionPrefix: string, idPrefix: string, param: Parameter, f: Faults)
    requires param.payload.Decoded? && !param.payload.definition.destroy.GetOr(false)
    requires f.indexRead.None? && f.info.None? && f.create.None? && f.update.None?
    ensures var d := param.payload.definition;
            var resolved := ResolvedId(w.params, d, IndexKey(param, definitionPrefix, idPrefix));
            var id := if resolved != "" then resolved else f.minted;
            var r := ProcessRecord(w, cfg, definitionPrefix, idPrefix, param, f);
            && r.value == Continue
            && id in r.world.acls && r.world.acls[id] == Target(param.payload.definition)
  {
    var d := param.payload.definition;
    var key := IndexKey(param, definitionPrefix, idPrefix);
    var item := Normalise(d, ResolvedId(w.params, d, key), Slug(param.name, definitionPrefix));
    RecordIsManage(w, cfg, definitionPrefix, idPrefix, param, f);
    ManageOutcomes(Called(w, IndexReads(d, key)), cfg, item, idPrefix, f);
  }

  /** Identifier authority: a declared ID that is not live is created under that very ID,
      with no index write, and a failed create ends the run. */
  lemma IdentifierAuthority(w: World, cfg: Config, definitionPrefix: string, idPrefix: string, param: Parameter, f: Faults)
    requires param.payload.Decoded? && !param.payload.definition.destroy.GetOr(false)
    requires DeclaredId(param.payload.definition) != "" && DeclaredId(param.payload.definition) !in w.acls
    requires f.info.None?
    ensures var d := param.payload.definition;
            var x := DeclaredId(d);
            var r := ProcessRecord(w, cfg, definitionPrefix, idPrefix, param, f);
            && r.world.calls == w.calls + [AclInfo(x), AclCreate(x, Target(d))]
            && r.world.params == w.params
            && (f.create.None? ==> r.value == Continue && r.world.acls == w.acls[x := Target(d)])
            && (f.create.Some? ==> r.value == Fatal(CreateFailed(Slug(param.name, definitionPrefix), f.create.value))
                                   && r.world.acls == w.acls)
  {
    var d := param.payload.definition;
    var key := IndexKey(param, definitionPrefix, idPrefix);
    var item := Normalise(d, DeclaredId(d), Slug(param.name, definitionPrefix));
    RecordIsManage(w, cfg, definitionPrefix, idPrefix, param, f);
    assert IndexReads(d, key) == [] && ResolvedId(w.params, d, key) == DeclaredId(d);
    assert Called(w, []) == w;
    ManageOutcomes(w, cfg, item, idPrefix, f);
  }

  /** Two batches of requests are one batch. */
  lemma CalledTwice(w: World, first: seq<Call>, second: seq<Call>)
    ensures Called(Called(w, first), second) == Called(w, first + second)
  {
    assert w.calls + first + second == w.calls + (first + second);
  }

  /** The no-ID branch of manageACL, on the normalised item. */
  lemma ManageWithoutId(w: World, cfg: Config, d: Definition, slug: string, idPrefix: string, f: Faults)
    requires !d.destroy.GetOr(false)
    ensures var input := ClientSetRules.PutInputFor(cfg, idPrefix + slug, f.minted);
            var r := Manage(w, cfg, Normalise(d, "", slug), idPrefix, f);
            && (f.create.Some? ==>
                  r == Reply(Called(w, [AclCreate("", Target(d))]), Fatal(CreateFailed(slug, f.create.value))))
            && (f.create.None? ==>
                  && r.value == Continue
                  && r.world.calls == w.calls + [AclCreate("", Target(d)), SsmPut(input)]
                  && r.world.acls == w.acls[f.minted := Target(d)]
                  && r.world.params == (if Remote.PutAccepted(w.params, input, f.put)
                                        then w.params[idPrefix + slug := f.minted] else w.params))
  {
  }

  /** With no ID declared and none in the index, a record is the reconciliation of
      the ID-less item after one index read. */
  lemma RecordWithoutId(w: World, cfg: Config, definitionPrefix: string, idPrefix: string, param: Parameter, f: Faults)
    requires param.payload.Decoded? && f.indexRead.None?
    requires ResolvedId(w.params, param.payload.definition, IndexKey(param, definitionPrefix, idPrefix)) == ""
    ensures ProcessRecord(w, cfg, definitionPrefix, idPrefix, param, f)
            == Manage(Called(w, [SsmGet(IndexKey(param, definitionPrefix, idPrefix))]), cfg,
                      Normalise(param.payload.definition, "", Slug(param.name, definitionPrefix)), idPrefix, f)
  {
    var d := param.payload.definition;
    var key := IndexKey(param, definitionPrefix, idPrefix);
    assert DeclaredId(d) == "";
    assert IndexReads(d, key) == [SsmGet(key)];
    RecordIsManage(w, cfg, definitionPrefix, idPrefix, param, f);
  }

  /** The no-ID create once the index read is done, stated against the world before the read. */
  lemma CreateAfterRead(w: World, cfg: Config, d: Definition, key: string, slug: string, idPrefix: string, f: Faults)
    requires !d.destroy.GetOr(false) && f.create.None?
    ensures var input := ClientSetRules.PutInputFor(cfg, idPrefix + slug, f.minted);
            var r := Manage(Called(w, [SsmGet(key)]), cfg, Normalise(d, "", slug), idPrefix, f);
            && r.value == Continue
            && r.world.calls == w.calls + [SsmGet(key), AclCreate("", Target(d)), SsmPut(input)]
            && r.world.acls == w.acls[f.minted := Target(d)]
            && r.world.params == (if Remote.PutAccepted(w.params, input, f.put)
                                  then w.params[idPrefix + slug := f.minted] else w.params)
  {
    var input := ClientSetRules.PutInputFor(cfg, idPrefix + slug, f.minted);
    ManageWithoutId(Called(w, [SsmGet(key)]), cfg, d, slug, idPrefix, f);
    assert (w.calls + [SsmGet(key)]) + [AclCreate("", Target(d)), SsmPut(input)]
           == w.calls + [SsmGet(key), AclCreate("", Target(d)), SsmPut(input)];
  }

  /** No-ID creation: with no ID declared and none in the index, one create without an ID,
      then one index write of the minted ID under the slug, whose failure is ignored. */
  lemma CreatesAndIndexes(w: World, cfg: Config, definitionPrefix: string, idPrefix: string, param: Parameter, f: Faults)
    requires param.payload.Decoded? && !param.payload.definition.destroy.GetOr(false)
    requires ResolvedId(w.params, param.payload.definition, IndexKey(param, definitionPrefix, idPrefix)) == ""
    requires f.indexRead.None? && f.create.None?
    ensures var d := param.payload.definition;
            var key := IndexKey(param, definitionPrefix, idPrefix);
            var input := ClientSetRules.PutInputFor(cfg, key, f.minted);
            var r := ProcessRecord(w, cfg, definitionPrefix, idPrefix, param, f);
            && r.value == Continue
            && r.world.calls == w.calls + [SsmGet(key), AclCreate("", Target(d)), SsmPut(input)]
            && r.world.acls == w.acls[f.minted := Target(d)]
            && r.world.params == (if Remote.PutAccepted(w.params, input, f.put) then w.params[key := f.minted] else w.params)
  {
    RecordWithoutId(w, cfg, definitionPrefix, idPrefix, param, f);
    CreateAfterRead(w, cfg, param.payload.definition, IndexKey(param, definitionPrefix, idPrefix),
                    Slug(param.name, definitionPrefix), idPrefix, f);
  }

  /** The failed no-ID create once the index read is done, stated against the world before the read. */
  lemma CreateFailsAfterRead(w: World, cfg: Config, d: Definition, key: string, slug: string, idPrefix: string, f: Faults)
    requires !d.destroy.GetOr(false) && f.create.Some?
    ensures Manage(Called(w, [SsmGet(key)]), cfg, Normalise(d, "", slug), idPrefix, f)
            == Reply(Called(w, [SsmGet(key), AclCreate("", Target(d))]), Fatal(CreateFailed(slug, f.create.value)))
  {
    ManageWithoutId(Called(w, [SsmGet(key)]), cfg, d, slug, idPrefix, f);
    CalledTwice(w, [SsmGet(key)], [AclCreate("", Target(d))]);
  }

  /** The index write's outcome is not looked at: when SSM refuses or fails it, the ID
      index still holds nothing, and the next pass creates the ACL once more under a
      second minted ID. */
  lemma RefusedIndexWriteCreatesAgain(w: World, cfg: Config, definitionPrefix: string, idPrefix: string,
                                      param: Parameter, f1: Faults, f2: Faults)
    requires param.payload.Decoded? && !param.payload.definition.destroy.GetOr(false)
    requires ResolvedId(w.params, param.payload.definition, IndexKey(param, definitionPrefix, idPrefix)) == ""
    requires f1.indexRead.None? && f1.create.None? && f2.indexRead.None? && f2.create.None?
    requires !Remote.PutAccepted(w.params, ClientSetRules.PutInputFor(cfg, IndexKey(param, definitionPrefix, idPrefix), f1.minted), f1.put)
    ensures var d := param.payload.definition;
            var key := IndexKey(param, definitionPrefix, idPrefix);
            var r1 := ProcessRecord(w, cfg, definitionPrefix, idPrefix, param, f1);
            var r2 := ProcessRecord(r1.world, cfg, definitionPrefix, idPrefix, param, f2);
            && r1.value == Continue && r2.value == Continue
            && r1.world.params == w.params
            && r2.world.calls == r1.world.calls + [SsmGet(key), AclCreate("", Target(d)),
                                                   SsmPut(ClientSetRules.PutInputFor(cfg, key, f2.minted))]
            && r2.world.acls == w.acls[f1.minted := Target(d)][f2.minted := Target(d)]
  {
    CreatesAndIndexes(w, cfg, definitionPrefix, idPrefix, param, f1);
    var r1 := ProcessRecord(w, cfg, definitionPrefix, idPrefix, param, f1);
    CreatesAndIndexes(r1.world, cfg, definitionPrefix, idPrefix, param, f2);
  }

  /** With no ID to be found, a failed create ends the run and leaves both services as they were. */
  lemma CreateWithoutIdFails(w: World, cfg: Config, definitionPrefix: string, idPrefix: string, param: Parameter, f: Faults)
    requires param.payload.Decoded? && !param.payload.definition.destroy.GetOr(false)
    requires ResolvedId(w.params, param.payload.definition, IndexKey(param, definitionPrefix, idPrefix)) == ""
    requires f.indexRead.None? && f.create.Some?
    ensures var d := param.payload.definition;
            var key := IndexKey(param, definitionPrefix, idPrefix);
            ProcessRecord(w, cfg, definitionPrefix, idPrefix, param, f)
            == Reply(Called(w, [SsmGet(key), AclCreate("", Target(d))]),
                     Fatal(CreateFailed(Slug(param.name, definitionPrefix), f.create.value)))
  {
    RecordWithoutId(w, cfg, definitionPrefix, idPrefix, param, f);
    CreateFailsAfterRead(w, cfg, param.payload.definition, IndexKey(param, definitionPrefix, idPrefix),
                         Slug(param.name, definitionPrefix), idPrefix, f);
  }

  /** Nothing manageACL does under a known ID touches the parameter store. */
  lemma ManageWithIdKeepsStore(w: World, cfg: Config, item: AclItem, idPrefix: string, f: Faults)
    requires item.id != ""
    ensures Manage(w, cfg, item, idPrefix, f).world.params == w.params
  {
  }

  /** The cluster already agrees with a definition under `id`: live with its name, type
      and rules, or absent when the definition asks for destruction. */
  predicate Settled(acls: map<string, Acl>, d: Definition, id: string) {
    id != "" &&
    (if d.destroy.GetOr(false) then id !in acls else id in acls && acls[id] == Target(d))
  }

  /** On a settled ID, manageACL only looks the ID up. */
  lemma ManageSettled(w: World, cfg: Config, d: Definition, id: string, slug: string, idPrefix: string, f: Faults)
    requires Settled(w.acls, d, id) && f.info.None?
    ensures Manage(w, cfg, Normalise(d, id, slug), idPrefix, f) == Reply(Called(w, [AclInfo(id)]), Continue)
  {
  }

  /** On a live ID marked for destruction, manageACL looks it up and destroys it. */
  lemma ManageDestroysLive(w: World, cfg: Config, d: Definition, id: string, slug: string, idPrefix: string, f: Faults)
    requires d.destroy.GetOr(false) && id != "" && id in w.acls && f.info.None? && f.destroy.None?
    ensures Manage(w, cfg, Normalise(d, id, slug), idPrefix, f)
            == Reply(World(w.acls - {id}, w.params, w.calls + [AclInfo(id), AclDestroy(id)]), Continue)
  {
  }

  /** On a live ID whose ACL differs from the definition, manageACL looks it up and
      overwrites it under the same ID. */
  lemma ManageUpdatesLive(w: World, cfg: Config, d: Definition, id: string, slug: string, idPrefix: string, f: Faults)
    requires !d.destroy.GetOr(false) && id != "" && id in w.acls && w.acls[id] != Target(d)
    requires f.info.None? && f.update.None?
    ensures Manage(w, cfg, Normalise(d, id, slug), idPrefix, f)
            == Reply(World(w.acls[id := Target(d)], w.params, w.calls + [AclInfo(id), AclUpdate(id, Target(d))]), Continue)
  {
  }

  /** A second pass over a definition with no ID to destroy by: the index read, and nothing else. */
  lemma QuietWithoutId(w: World, cfg: Config, definitionPrefix: string, idPrefix: string, param: Parameter, m: string)
    requires param.payload.Decoded? && param.payload.definition.destroy.GetOr(false)
    requires ResolvedId(w.params, param.payload.definition, IndexKey(param, definitionPrefix, idPrefix)) == ""
    ensures ProcessRecord(w, cfg, definitionPrefix, idPrefix, param, NoFaults(m))
            == Reply(Called(w, IndexReads(param.payload.definition, IndexKey(param, definitionPrefix, idPrefix))), Continue)
  {
    RecordIsManage(w, cfg, definitionPrefix, idPrefix, param, NoFaults(m));
  }

  /** A second pass over a definition settled under `x`: at most the index read, then the lookup. */
  lemma QuietWithId(w: World, cfg: Config, definitionPrefix: string, idPrefix: string, param: Parameter, m: string, x: string)
    requires param.payload.Decoded?
    requires x == ResolvedId(w.params, param.payload.definition, IndexKey(param, definitionPrefix, idPrefix))
    requires Settled(w.acls, param.payload.definition, x)
    ensures ProcessRecord(w, cfg, definitionPrefix, idPrefix, param, NoFaults(m))
            == Reply(Called(w, IndexReads(param.payload.definition, IndexKey(param, definitionPrefix, idPrefix)) + [AclInfo(x)]),
                     Continue)
  {
    var d := param.payload.definition;
    var indexReads := IndexReads(d, IndexKey(param, definitionPrefix, idPrefix));
    RecordIsManage(w, cfg, definitionPrefix, idPrefix, param, NoFaults(m));
    ManageSettled(Called(w, indexReads), cfg, d, x, Slug(param.name, definitionPrefix), idPrefix, NoFaults(m));
    CalledTwice(w, indexReads, [AclInfo(x)]);
  }

  /** One reconciliation that meets no failure leaves a world the definition agrees with,
      provided Consul mints a non-empty ID and the minted ID's index write is not refused. */
  lemma FirstPassSettles(w: World, cfg: Config, definitionPrefix: string, idPrefix: string, param: Parameter, m: string)
    requires param.payload.Decoded? && m != ""
    requires var d := param.payload.definition;
             var key := IndexKey(param, definitionPrefix, idPrefix);
             ResolvedId(w.params, d, key) == "" && !d.destroy.GetOr(false) ==> key !in w.params || cfg.overwrite
    ensures var d := param.payload.definition;
            var r := ProcessRecord(w, cfg, definitionPrefix, idPrefix, param, NoFaults(m));
            var x := ResolvedId(r.world.params, d, IndexKey(param, definitionPrefix, idPrefix));
            && r.value == Continue
            && (if x == "" then d.destroy.GetOr(false) else Settled(r.world.acls, d, x))
            && x == (var before := ResolvedId(w.params, d, IndexKey(param, definitionPrefix, idPrefix));
                     if before == "" && !d.destroy.GetOr(false) then m else before)
  {
    var d := param.payload.definition;
    var key := IndexKey(param, definitionPrefix, idPrefix);
    var x := ResolvedId(w.params, d, key);
    var slug := Slug(param.name, definitionPrefix);
    var item := Normalise(d, x, slug);
    RecordIsManage(w, cfg, definitionPrefix, idPrefix, param, NoFaults(m));
    if !d.destroy.GetOr(false) {
      RecordConverges(w, cfg, definitionPrefix, idPrefix, param, NoFaults(m));
      if x == "" {
        CreatesAndIndexes(w, cfg, definitionPrefix, idPrefix, param, NoFaults(m));
      } else {
        ManageWithIdKeepsStore(Called(w, IndexReads(d, key)), cfg, item, idPrefix, NoFaults(m));
      }
    } else if x != "" {
      if x in w.acls {
        ManageDestroysLive(Called(w, IndexReads(d, key)), cfg, d, x, slug, idPrefix, NoFaults(m));
      } else {
        ManageSettled(Called(w, IndexReads(d, key)), cfg, d, x, slug, idPrefix, NoFaults(m));
      }
    }
  }

  /** Index reads and lookups change neither service. */
  lemma LookupsOnlyRead(w: World, key: string, d: Definition, tail: seq<Call>)
    requires tail == [] || (|tail| == 1 && tail[0].AclInfo?)
    ensures OnlyReads(w.calls, Called(w, IndexReads(d, key) + tail).calls)
  {
    var extra := IndexReads(d, key) + tail;
    assert forall i | 0 <= i < |extra| :: extra[i].SsmGet? || extra[i].AclInfo?;
  }

  /** A pass over a definition the world already agrees with issues reads only, and
      changes neither service. */
  lemma SecondPassReadsOnly(w: World, cfg: Config, definitionPrefix: string, idPrefix: string, param: Parameter, m: string)
    requires param.payload.Decoded?
    requires var d := param.payload.definition;
             var x := ResolvedId(w.params, d, IndexKey(param, definitionPrefix, idPrefix));
             if x == "" then d.destroy.GetOr(false) else Settled(w.acls, d, x)
    ensures var d := param.payload.definition;
            var key := IndexKey(param, definitionPrefix, idPrefix);
            var x := ResolvedId(w.params, d, key);
            var r := ProcessRecord(w, cfg, definitionPrefix, idPrefix, param, NoFaults(m));
            && r.value == Continue
            && r.world.acls == w.acls && r.world.params == w.params
            && OnlyReads(w.calls, r.world.calls)
            && (!d.destroy.GetOr(false) ==> r.world.calls == w.calls + IndexReads(d, key) + [AclInfo(x)])
  {
    var d := param.payload.definition;
    var key := IndexKey(param, definitionPrefix, idPrefix);
    var x := ResolvedId(w.params, d, key);
    if x == "" {
      QuietWithoutIdReadsOnly(w, cfg, definitionPrefix, idPrefix, param, m);
    } else {
      QuietWithIdReadsOnly(w, cfg, definitionPrefix, idPrefix, param, m, x);
    }
  }

  /** The no-ID case of a quiet pass: nothing but the index read. */
  lemma QuietWithoutIdReadsOnly(w: World, cfg: Config, definitionPrefix: string, idPrefix: string, param: Parameter, m: string)
    requires param.payload.Decoded? && param.payload.definition.destroy.GetOr(false)
    requires ResolvedId(w.params, param.payload.definition, IndexKey(param, definitionPrefix, idPrefix)) == ""
    ensures var r := ProcessRecord(w, cfg, definitionPrefix, idPrefix, param, NoFaults(m));
            && r.value == Continue
            && r.world.acls == w.acls && r.world.params == w.params
            && OnlyReads(w.calls, r.world.calls)
  {
    var d := param.payload.definition;
    var key := IndexKey(param, definitionPrefix, idPrefix);
    QuietWithoutId(w, cfg, definitionPrefix, idPrefix, param, m);
    LookupsOnlyRead(w, key, d, []);
    assert IndexReads(d, key) + [] == IndexReads(d, key);
  }

  /** The settled case of a quiet pass: at most the index read, then one lookup. */
  lemma QuietWithIdReadsOnly(w: World, cfg: Config, definitionPrefix: string, idPrefix: string, param: Parameter,
                             m: string, x: string)
    requires param.payload.Decoded?
    requires x == ResolvedId(w.params, param.payload.definition, IndexKey(param, definitionPrefix, idPrefix))
    requires Settled(w.acls, param.payload.definition, x)
    ensures var d := param.payload.definition;
            var key := IndexKey(param, definitionPrefix, idPrefix);
            var r := ProcessRecord(w, cfg, definitionPrefix, idPrefix, param, NoFaults(m));
            && r.value == Continue
            && r.world.acls == w.acls && r.world.params == w.params
            && OnlyReads(w.calls, r.world.calls)
            && r.world.calls == w.calls + IndexReads(d, key) + [AclInfo(x)]
  {
    var d := param.payload.definition;
    var key := IndexKey(param, definitionPrefix, idPrefix);
    QuietWithId(w, cfg, definitionPrefix, idPrefix, param, m, x);
    LookupFacts(w, ProcessRecord(w, cfg, definitionPrefix, idPrefix, param, NoFaults(m)), d, key, x);
  }

  /** What a reply made of the index read and one lookup says about both services. */
  lemma LookupFacts(w: World, r: Reply<Step>, d: Definition, key: string, x: string)
    requires r == Reply(Called(w, IndexReads(d, key) + [AclInfo(x)]), Continue)
    ensures && r.value == Continue
            && r.world.acls == w.acls && r.world.params == w.params
            && OnlyReads(w.calls, r.world.calls)
            && r.world.calls == w.calls + IndexReads(d, key) + [AclInfo(x)]
  {
    LookupsOnlyRead(w, key, d, [AclInfo(x)]);
    assert w.calls + IndexReads(d, key) + [AclInfo(x)] == w.calls + (IndexReads(d, key) + [AclInfo(x)]);
  }

  /** Idempotence: reconciling a definition a second time, with nothing failing either
      time, issues reads only and changes neither service; a definition not marked for
      destruction then meets its live ACL and is skipped after one lookup. */
  lemma RecordIdempotent(w: World, cfg: Config, definitionPrefix: string, idPrefix: string, param: Parameter,
                         m1: string, m2: string)
    requires param.payload.Decoded? && m1 != ""
    requires var d := param.payload.definition;
             var key := IndexKey(param, definitionPrefix, idPrefix);
             ResolvedId(w.params, d, key) == "" && !d.destroy.GetOr(false) ==> key !in w.params || cfg.overwrite
    ensures var d := param.payload.definition;
            var key := IndexKey(param, definitionPrefix, idPrefix);
            var r1 := ProcessRecord(w, cfg, definitionPrefix, idPrefix, param, NoFaults(m1));
            var r2 := ProcessRecord(r1.world, cfg, definitionPrefix, idPrefix, param, NoFaults(m2));
            var x := ResolvedId(w.params, d, key);
            && r1.value == Continue && r2.value == Continue
            && r2.world.acls == r1.world.acls && r2.world.params == r1.world.params
            && OnlyReads(r1.world.calls, r2.world.calls)
            && (!d.destroy.GetOr(false) ==>
                  r2.world.calls == r1.world.calls + IndexReads(d, key) + [AclInfo(if x == "" then m1 else x)])
  {
    FirstPassSettles(w, cfg, definitionPrefix, idPrefix, param, m1);
    var r1 := ProcessRecord(w, cfg, definitionPrefix, idPrefix, param, NoFaults(m1));
    SecondPassReadsOnly(r1.world, cfg, definitionPrefix, idPrefix, param, m2);
  }

  /** Destroy, then idempotent: a live ACL marked for destruction is destroyed by one
      request, and a second pass only looks it up. */
  lemma DestroyThenIdempotent(w: World, cfg: Config, definitionPrefix: string, idPrefix: string, param: Parameter,
                              m1: string, m2: string)
    requires param.payload.Decoded? && param.payload.definition.destroy.GetOr(false)
    requires var x := ResolvedId(w.params, param.payload.definition, IndexKey(param, definitionPrefix, idPrefix));
             x != "" && x in w.acls
    ensures var d := param.payload.definition;
            var key := IndexKey(param, definitionPrefix, idPrefix);
            var x := ResolvedId(w.params, d, key);
            var r1 := ProcessRecord(w, cfg, definitionPrefix, idPrefix, param, NoFaults(m1));
            var r2 := ProcessRecord(r1.world, cfg, definitionPrefix, idPrefix, param, NoFaults(m2));
            && r1 == Reply(World(w.acls - {x}, w.params, w.calls + IndexReads(d, key) + [AclInfo(x), AclDestroy(x)]), Continue)
            && r2 == Reply(Called(r1.world, IndexReads(d, key) + [AclInfo(x)]), Continue)
  {
    var d := param.payload.definition;
    var key := IndexKey(param, definitionPrefix, idPrefix);
    var x := ResolvedId(w.params, d, key);
    var indexReads := IndexReads(d, key);
    RecordIsManage(w, cfg, definitionPrefix, idPrefix, param, NoFaults(m1));
    ManageDestroysLive(Called(w, indexReads), cfg, d, x, Slug(param.name, definitionPrefix), idPrefix, NoFaults(m1));
    assert (w.calls + indexReads) + [AclInfo(x), AclDestroy(x)] == w.calls + indexReads + [AclInfo(x), AclDestroy(x)];
    var r1 := ProcessRecord(w, cfg, definitionPrefix, idPrefix, param, NoFaults(m1));
    QuietWithId(r1.world, cfg, definitionPrefix, idPrefix, param, m2, x);
  }

  /** Update, destroy and index-write failures are only logged: whether manageACL goes on
      depends on the lookup and the create alone. */
  lemma ManageStepIgnoresLoggedFaults(w: World, cfg: Config, item: AclItem, idPrefix: string, f: Faults, g: Faults)
    requires g.info == f.info && g.create == f.create
    ensures Manage(w, cfg, item, idPrefix, f).value == Manage(w, cfg, item, idPrefix, g).value
  {
  }

  /** The same for a whole record: only the index read, the lookup and the create can stop the run. */
  lemma RecordStepIgnoresLoggedFaults(w: World, cfg: Config, definitionPrefix: string, idPrefix: string,
                                      param: Parameter, f: Faults, g: Faults)
    requires g.indexRead == f.indexRead && g.info == f.info && g.create == f.create
    ensures ProcessRecord(w, cfg, definitionPrefix, idPrefix, param, f).value
            == ProcessRecord(w, cfg, definitionPrefix, idPrefix, param, g).value
  {
    var parsed := Parse(w, definitionPrefix, idPrefix, param, f.indexRead);
    if parsed.value.Success? {
      ManageStepIgnoresLoggedFaults(parsed.world, cfg, parsed.value.value, idPrefix, f, g);
    }
  }

  /** A record that stops the run does so with a decode, index-read, lookup or create failure. */
  lemma RecordFatalKinds(w: World, cfg: Config, definitionPrefix: string, idPrefix: string, param: Parameter, f: Faults)
    ensures var r := ProcessRecord(w, cfg, definitionPrefix, idPrefix, param, f);
            r.value.Fatal? ==> r.value.error.Fatal()
  {
  }

  /** The same for a run over any records. */
  lemma {:induction false} RunFatalKinds(w: World, cfg: Config, definitionPrefix: string, idPrefix: string,
                                         records: seq<Parameter>, faults: nat -> Faults)
    ensures var r := Run(w, cfg, definitionPrefix, idPrefix, records, faults);
            r.value.Fatal? ==> r.value.error.Fatal()
    decreases |records|
  {
    if records != [] {
      var front := records[..|records| - 1];
      RunFatalKinds(w, cfg, definitionPrefix, idPrefix, front, faults);
      var before := Run(w, cfg, definitionPrefix, idPrefix, front, faults);
      RecordFatalKinds(before.world, cfg, definitionPrefix, idPrefix, records[|records| - 1], faults(|records| - 1));
    }
  }

  /** The errors Sync reports: a missing prefix, a failed leader check, a failed listing,
      or one of the fatal failures; update and destroy failures never surface. */
  lemma SyncErrorKinds(w: World, cfg: Config, input: SyncInput, self: Result<SelfInfo, Cause>,
                       listing: Listing, faults: nat -> Faults)
    ensures var r := SyncSpec(w, cfg, input, self, listing, faults);
            r.value.Some? ==>
              r.value.value.DefinitionPrefixRequired? || r.value.value.LeaderCheckFailed? ||
              r.value.value.ListFailed? || r.value.value.Fatal()
  {
    var definitionPrefix := EnsureTrailingSlash(input.definitionPrefix);
    var probed := if input.onlyIfConsulLeader then Called(w, [AgentSelf]) else w;
    var listed := Called(probed, [SsmList(ListRequest(definitionPrefix, input.pageSize))]);
    RunFatalKinds(listed, cfg, definitionPrefix, EnsureTrailingSlash(input.idPrefix), Flatten(listing.pages), faults);
  }

  /** The fatal side of the boundary: after earlier records went through, a record whose
      create without an ID fails ends the run, and no later record is looked at. */
  lemma CreateFailureEndsRun(w: World, cfg: Config, definitionPrefix: string, idPrefix: string,
                             records: seq<Parameter>, next: Parameter, later: seq<Parameter>, faults: nat -> Faults)
    requires Run(w, cfg, definitionPrefix, idPrefix, records, faults).value == Continue
    requires next.payload.Decoded? && !next.payload.definition.destroy.GetOr(false)
    requires faults(|records|).indexRead.None? && faults(|records|).create.Some?
    requires ResolvedId(Run(w, cfg, definitionPrefix, idPrefix, records, faults).world.params,
                        next.payload.definition, IndexKey(next, definitionPrefix, idPrefix)) == ""
    ensures var before := Run(w, cfg, definitionPrefix, idPrefix, records, faults);
            Run(w, cfg, definitionPrefix, idPrefix, records + [next] + later, faults)
            == Reply(Called(before.world, [SsmGet(IndexKey(next, definitionPrefix, idPrefix)),
                                           AclCreate("", Target(next.payload.definition))]),
                     Fatal(CreateFailed(Slug(next.name, definitionPrefix), faults(|records|).create.value)))
  {
    var before := Run(w, cfg, definitionPrefix, idPrefix, records, faults);
    SyncProperties.RunStep(w, cfg, definitionPrefix, idPrefix, records, next, faults);
    CreateWithoutIdFails(before.world, cfg, definitionPrefix, idPrefix, next, faults(|records|));
    SyncProperties.RunStopsAtFatal(w, cfg, definitionPrefix, idPrefix, records + [next], later, faults);
  }

  /** After earlier records, a payload that does not decode ends the run with no request,
      and later records do nothing. */
  lemma MalformedEndsRun(w: World, cfg: Config, definitionPrefix: string, idPrefix: string,
                         records: seq<Parameter>, next: Parameter, later: seq<Parameter>, faults: nat -> Faults)
    requires Run(w, cfg, definitionPrefix, idPrefix, records, faults).value == Continue
    requires next.payload.Malformed?
    ensures Run(w, cfg, definitionPrefix, idPrefix, records + [next] + later, faults)
            == Reply(Run(w, cfg, definitionPrefix, idPrefix, records, faults).world,
                     Fatal(DecodeFailed(Slug(next.name, definitionPrefix), next.name)))
  {
    SyncProperties.RunStep(w, cfg, definitionPrefix, idPrefix, records, next, faults);
    RecordMalformed(Run(w, cfg, definitionPrefix, idPrefix, records, faults).world, cfg, definitionPrefix, idPrefix,
                    next, faults(|records|));
    SyncProperties.RunStopsAtFatal(w, cfg, definitionPrefix, idPrefix, records + [next], later, faults);
  }

  /** After earlier records, a failed index read (other than not-found) for a definition
      without an ID ends the run after that one read, and later records do nothing. */
  lemma IndexReadFailureEndsRun(w: World, cfg: Config, definitionPrefix: string, idPrefix: string,
                                records: seq<Parameter>, next: Parameter, later: seq<Parameter>, faults: nat -> Faults)
    requires Run(w, cfg, definitionPrefix, idPrefix, records, faults).value == Continue
    requires next.payload.Decoded? && DeclaredId(next.payload.definition) == ""
    requires faults(|records|).indexRead.Some? && !ClientSetRules.IsNotFound(faults(|records|).indexRead.value)
    ensures var key := IndexKey(next, definitionPrefix, idPrefix);
            Run(w, cfg, definitionPrefix, idPrefix, records + [next] + later, faults)
            == Reply(Called(Run(w, cfg, definitionPrefix, idPrefix, records, faults).world, [SsmGet(key)]),
                     Fatal(IndexReadFailed(key, faults(|records|).indexRead.value)))
  {
    SyncProperties.RunStep(w, cfg, definitionPrefix, idPrefix, records, next, faults);
    RecordIndexReadFails(Run(w, cfg, definitionPrefix, idPrefix, records, faults).world, cfg, definitionPrefix, idPrefix,
                         next, faults(|records|));
    SyncProperties.RunStopsAtFatal(w, cfg, definitionPrefix, idPrefix, records + [next], later, faults);
  }

  /** A declared ID whose live ACL differs is overwritten under that ID after one lookup,
      with no index read and no index write. */
  lemma RecordUpdatesLive(w: World, cfg: Config, definitionPrefix: string, idPrefix: string, param: Parameter, f: Faults)
    requires param.payload.Decoded? && !param.payload.definition.destroy.GetOr(false)
    requires f.info.None? && f.update.None?
    requires var x := DeclaredId(param.payload.definition);
             x != "" && x in w.acls && w.acls[x] != Target(param.payload.definition)
    ensures var d := param.payload.definition;
            var x := DeclaredId(d);
            ProcessRecord(w, cfg, definitionPrefix, idPrefix, param, f)
            == Reply(World(w.acls[x := Target(d)], w.params, w.calls + [AclInfo(x), AclUpdate(x, Target(d))]), Continue)
  {
    var d := param.payload.definition;
    var slug := Slug(param.name, definitionPrefix);
    RecordWithId(w, cfg, definitionPrefix, idPrefix, param, f);
    ManageUpdatesLive(w, cfg, d, DeclaredId(d), slug, idPrefix, f);
  }

  /** With an ID declared, a record is the reconciliation of its item, with no index read. */
  lemma RecordWithId(w: World, cfg: Config, definitionPrefix: string, idPrefix: string, param: Parameter, f: Faults)
    requires param.payload.Decoded? && DeclaredId(param.payload.definition) != ""
    ensures ProcessRecord(w, cfg, definitionPrefix, idPrefix, param, f)
            == Manage(w, cfg, Normalise(param.payload.definition, DeclaredId(param.payload.definition),
                                        Slug(param.name, definitionPrefix)), idPrefix, f)
  {
    var d := param.payload.definition;
    assert Parse(w, definitionPrefix, idPrefix, param, f.indexRead)
           == Reply(w, Success(Normalise(d, DeclaredId(d), Slug(param.name, definitionPrefix))));
  }

  /** A payload that does not decode stops the run with `DecodeFailed`, before any request. */
  lemma RecordMalformed(w: World, cfg: Config, definitionPrefix: string, idPrefix: string, param: Parameter, f: Faults)
    requires param.payload.Malformed?
    ensures ProcessRecord(w, cfg, definitionPrefix, idPrefix, param, f)
            == Reply(w, Fatal(DecodeFailed(Slug(param.name, definitionPrefix), param.name)))
  {
    assert Parse(w, definitionPrefix, idPrefix, param, f.indexRead)
           == Reply(w, Failure(DecodeFailed(Slug(param.name, definitionPrefix), param.name)));
  }

  /** For a definition without an ID, an index read that fails other than with not-found
      stops the run with `IndexReadFailed` after that one read. */
  lemma RecordIndexReadFails(w: World, cfg: Config, definitionPrefix: string, idPrefix: string, param: Parameter, f: Faults)
    requires param.payload.Decoded? && DeclaredId(param.payload.definition) == ""
    requires f.indexRead.Some? && !ClientSetRules.IsNotFound(f.indexRead.value)
    ensures var key := IndexKey(param, definitionPrefix, idPrefix);
            ProcessRecord(w, cfg, definitionPrefix, idPrefix, param, f)
            == Reply(Called(w, [SsmGet(key)]), Fatal(IndexReadFailed(key, f.indexRead.value)))
  {
    var key := IndexKey(param, definitionPrefix, idPrefix);
    assert Parse(w, definitionPrefix, idPrefix, param, f.indexRead)
           == Reply(Called(w, [SsmGet(key)]), Failure(IndexReadFailed(key, f.indexRead.value)));
  }

  /** A failed update of a differing live ACL leaves the cluster as it was, and is not fatal. */
  lemma FailedUpdateKeepsCluster(w: World, cfg: Config, definitionPrefix: string, idPrefix: string, param: Parameter, f: Faults)
    requires param.payload.Decoded? && !param.payload.definition.destroy.GetOr(false)
    requires f.indexRead.None? && f.info.None? && f.update.Some?
    requires var x := ResolvedId(w.params, param.payload.definition, IndexKey(param, definitionPrefix, idPrefix));
             x != "" && x in w.acls && w.acls[x] != Target(param.payload.definition)
    ensures var r := ProcessRecord(w, cfg, definitionPrefix, idPrefix, param, f);
            r.value == Continue && r.world.acls == w.acls
  {
    var d := param.payload.definition;
    var x := ResolvedId(w.params, d, IndexKey(param, definitionPrefix, idPrefix));
    var key := IndexKey(param, definitionPrefix, idPrefix);
    var item := Normalise(d, x, Slug(param.name, definitionPrefix));
    RecordIsManage(w, cfg, definitionPrefix, idPrefix, param, f);
    ManageOutcomes(Called(w, IndexReads(d, key)), cfg, item, idPrefix, f);
  }

  /** The logged side of the boundary: a record whose update of a differing live ACL fails
      leaves the cluster as it was, and the run goes on to the next record. */
  lemma UpdateFailureContinues(w: World, cfg: Config, definitionPrefix: string, idPrefix: string,
                               records: seq<Parameter>, next: Parameter, after: Parameter, faults: nat -> Faults)
    requires Run(w, cfg, definitionPrefix, idPrefix, records, faults).value == Continue
    requires next.payload.Decoded? && !next.payload.definition.destroy.GetOr(false)
    requires var f := faults(|records|); f.indexRead.None? && f.info.None? && f.update.Some?
    requires var acls := Run(w, cfg, definitionPrefix, idPrefix, records, faults).world.acls;
             var x := ResolvedId(Run(w, cfg, definitionPrefix, idPrefix, records, faults).world.params,
                                 next.payload.definition, IndexKey(next, definitionPrefix, idPrefix));
             x != "" && x in acls && acls[x] != Target(next.payload.definition)
    ensures var before := Run(w, cfg, definitionPrefix, idPrefix, records, faults);
            var middle := Run(w, cfg, definitionPrefix, idPrefix, records + [next], faults);
            && middle.value == Continue
            && middle.world.acls == before.world.acls
            && Run(w, cfg, definitionPrefix, idPrefix, records + [next] + [after], faults)
               == ProcessRecord(middle.world, cfg, definitionPrefix, idPrefix, after, faults(|records| + 1))
  {
    var before := Run(w, cfg, definitionPrefix, idPrefix, records, faults);
    SyncProperties.RunStep(w, cfg, definitionPrefix, idPrefix, records, next, faults);
    FailedUpdateKeepsCluster(before.world, cfg, definitionPrefix, idPrefix, next, faults(|records|));
    SyncProperties.RunStep(w, cfg, definitionPrefix, idPrefix, records + [next], after, faults);
  }
}
