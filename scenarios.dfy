/** Worked reconciliations of two definitions: `svc-a`, stored under `acl/svc-a` with
    its ID index under `index/`, and `svc-b`, which declares its ID but no type. */
module Scenarios {
  import opened Wrappers
  import opened Types
  import ClientSetRules
  import opened SyncRules
  import PathProperties
  import ReconcileProperties

  const DefinitionPrefix := "acl/"
  const IdPrefix := "index/"
  const Rules := "node_prefix \"\" { policy = \"read\" }"

  /** The definition record, declaring `id` (absent when "") and nothing to destroy. */
  function SvcA(id: string): Parameter {
    Parameter("acl/svc-a", Decoded(Definition(if id == "" then None else Some(id), Some("svc-a"), Some("client"),
                                              Some(Rules), Some(false))))
  }

  /** The ACL the definition asks for. */
  function SvcAAcl(): Acl {
    Acl("svc-a", "client", Rules)
  }

  /** The slug of the record is `svc-a`, so its index key is `index/svc-a`. */
  lemma SvcAKey(id: string)
    ensures Slug(SvcA(id).name, DefinitionPrefix) == "svc-a"
    ensures ReconcileProperties.IndexKey(SvcA(id), DefinitionPrefix, IdPrefix) == "index/svc-a"
  {
    SvcASlug();
    assert SvcA(id).name == "acl/svc-a";
  }

  /** The name `acl/svc-a` is the prefix followed by `svc-a`, which holds no slash. */
  lemma SvcASlug()
    ensures Slug("acl/svc-a", DefinitionPrefix) == "svc-a"
  {
    assert "acl/svc-a" == DefinitionPrefix + "svc-a";
    PathProperties.SlugOfDirectChild(DefinitionPrefix, "svc-a");
  }

  /** No ID and an empty cluster: one create without an ID, and one index write of the
      minted ID under the slug. */
  lemma CreateScenario(cfg: Config, minted: string)
    ensures var w := World(map[], map[], []);
            var r := ProcessRecord(w, cfg, DefinitionPrefix, IdPrefix, SvcA(""), ReconcileProperties.NoFaults(minted));
            && r.value == Continue
            && r.world.calls == [SsmGet("index/svc-a"), AclCreate("", SvcAAcl()),
                                 SsmPut(ClientSetRules.PutInputFor(cfg, "index/svc-a", minted))]
            && r.world.acls == map[minted := SvcAAcl()]
            && r.world.params == map["index/svc-a" := minted]
  {
    var w := World(map[], map[], []);
    SvcAKey("");
    assert Target(SvcA("").payload.definition) == SvcAAcl();
    ReconcileProperties.CreatesAndIndexes(w, cfg, DefinitionPrefix, IdPrefix, SvcA(""), ReconcileProperties.NoFaults(minted));
  }

  /** ID `abc`, live with another name and rules: one update under `abc`, and the run goes on. */
  lemma UpdateScenario(cfg: Config, minted: string)
    ensures var stale := Acl("old", "client", "old-rules");
            var w := World(map["abc" := stale], map[], []);
            var r := ProcessRecord(w, cfg, DefinitionPrefix, IdPrefix, SvcA("abc"), ReconcileProperties.NoFaults(minted));
            && r.value == Continue
            && r.world.calls == [AclInfo("abc"), AclUpdate("abc", SvcAAcl())]
            && r.world.acls == map["abc" := SvcAAcl()]
            && r.world.params == map[]
  {
    var w := World(map["abc" := Acl("old", "client", "old-rules")], map[], []);
    var d := SvcA("abc").payload.definition;
    assert DeclaredId(d) == "abc";
    assert Target(d) == SvcAAcl();
    ReconcileProperties.RecordUpdatesLive(w, cfg, DefinitionPrefix, IdPrefix, SvcA("abc"), ReconcileProperties.NoFaults(minted));
    Reassigned(Acl("old", "client", "old-rules"), SvcAAcl());
  }

  /** A second definition, `acl/svc-b`, declaring ID `abc` and no type. */
  function SvcB(): Parameter {
    Parameter("acl/svc-b", Decoded(Definition(Some("abc"), Some("svc-b"), None, Some(Rules), None)))
  }

  /** No type declared: the ACL is created under the declared ID with the type `client`. */
  lemma DefaultTypeScenario(cfg: Config, minted: string)
    ensures var r := ProcessRecord(World(map[], map[], []), cfg, DefinitionPrefix, IdPrefix, SvcB(),
                                   ReconcileProperties.NoFaults(minted));
            && r.value == Continue
            && r.world.calls == [AclInfo("abc"), AclCreate("abc", Acl("svc-b", "client", Rules))]
            && r.world.acls == map["abc" := Acl("svc-b", "client", Rules)]
            && r.world.params == map[]
  {
    var w := World(map[], map[], []);
    var d := SvcB().payload.definition;
    assert DeclaredId(d) == "abc";
    assert Target(d) == Acl("svc-b", "client", Rules);
    ReconcileProperties.IdentifierAuthority(w, cfg, DefinitionPrefix, IdPrefix, SvcB(), ReconcileProperties.NoFaults(minted));
    Added(Acl("svc-b", "client", Rules));
  }

  /** Adding the only entry of a one-entry table. */
  lemma Added(acl: Acl)
    ensures map[]["abc" := acl] == map["abc" := acl]
  {
  }

  /** Overwriting the only entry of a one-entry table. */
  lemma Reassigned(stale: Acl, current: Acl)
    ensures map["abc" := stale]["abc" := current] == map["abc" := current]
  {
  }
}
