/** The decision rules of the SSM and Consul client wrappers: what a parameter read
    returns, what a parameter write sends, and how the leader flag is read. */
module ClientSetRules {
  import opened Wrappers
  import opened Types

  /** Whether an error is SSM's "parameter not found". */
  predicate IsNotFound(e: Cause) {
    e.AwsError? && e.code == NotFoundCode
  }

  /** GetStringParameter: what the caller gets from SSM's answer to a read. */
  function GetString(resp: Result<string, Cause>, failNotFound: bool): (r: Result<string, Cause>)
    ensures resp.Success? ==> r == resp
    ensures resp.Failure? && IsNotFound(resp.error) && !failNotFound ==> r == Success("")
    ensures resp.Failure? && (failNotFound || !IsNotFound(resp.error)) ==> r == resp
    ensures r.Success? && r.value != "" ==> resp == r
  {
    match resp
    case Success(v) => Success(v)
    case Failure(e) =>
      if e.AwsError? && !failNotFound && e.code == NotFoundCode then Success("") else Failure(e)
  }

  /** The request PutStringParameter builds for writing `value` at `name`. */
  function PutInputFor(cfg: Config, name: string, value: string): (input: PutInput)
    ensures input.name == name && input.value == value && input.overwrite == cfg.overwrite
    ensures input.paramType == (if cfg.insecure then "String" else "SecureString")
    ensures input.keyId == (if cfg.kmsKeyID != "" then Some(cfg.kmsKeyID) else None)
  {
    PutInput(name, value, cfg.overwrite, if cfg.insecure then "String" else "SecureString",
             if cfg.kmsKeyID != "" then Some(cfg.kmsKeyID) else None)
  }

  /** The "consul" section of the agent's stats, when it is a JSON object. */
  function ConsulStats(self: SelfInfo): (stats: Option<map<string, Value>>)
    ensures stats.Some? <==> "Stats" in self && "consul" in self["Stats"] && self["Stats"]["consul"].Obj?
    ensures stats.Some? ==> stats.value == self["Stats"]["consul"].fields
  {
    if "Stats" in self && "consul" in self["Stats"] && self["Stats"]["consul"].Obj?
    then Some(self["Stats"]["consul"].fields)
    else None
  }

  /** isLeader: whether the agent's stats say it is the leader. */
  function IsLeader(self: Result<SelfInfo, Cause>): (r: Result<bool, LeaderError>)
    ensures self.Failure? ==> r == Failure(SelfFailed(self.error))
    ensures r == Success(true) <==>
              self.Success? && ConsulStats(self.value).Some? &&
              "leader" in ConsulStats(self.value).value && ConsulStats(self.value).value["leader"] == Str("true")
    ensures r == Success(false) <==>
              self.Success? && ConsulStats(self.value).Some? &&
              "leader" in ConsulStats(self.value).value && ConsulStats(self.value).value["leader"].Str? &&
              ConsulStats(self.value).value["leader"].s != "true"
    ensures r == Failure(StatsUnparsable) <==> self.Success? && ConsulStats(self.value).None?
    ensures r == Failure(ConsulStatsUnparsable) <==>
              self.Success? && ConsulStats(self.value).Some? &&
              ("leader" !in ConsulStats(self.value).value || !ConsulStats(self.value).value["leader"].Str?)
  {
    match self
    case Failure(e) => Failure(SelfFailed(e))
    case Success(resp) =>
      // a missing section of a Go map reads as an empty map, a missing key as nil
      var stats := if "Stats" in resp then resp["Stats"] else map[];
      var consul := if "consul" in stats then stats["consul"] else OtherValue;
      match consul
      case Obj(fields) =>
        var leader := if "leader" in fields then fields["leader"] else OtherValue;
        (match leader
         case Str(s) => Success(s == "true")
         case _ => Failure(ConsulStatsUnparsable))
      case _ => Failure(StatsUnparsable)
  }
}
