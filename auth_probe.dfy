/** The reply to the `opaque_check` command, which tells which login methods
    the server offers a user, shaped into the three-key dict that both the
    client class and the OPAQUE login script return. */
module AuthProbe {
  import opened Json
  import opened Http

  /** The three keys of every shaped result. */
  const ProbeKeys: set<string> := {"opaque_enabled", "srp_enabled", "migration_available"}

  /** The value the shaping gives `key` for a given reply: what the reply's
      dict holds under it, or `False` when the key is missing or the reply is
      not a dict. */
  function Field(resp: Response, key: string): Value {
    if resp.Reply? && resp.body.Dict? && key in resp.body.fields then resp.body.fields[key]
    else Bool(false)
  }

  /** The shaping both callers share, up to the handling of exceptions: `None`
      stands for an exception inside the `try`. The transport's exception and
      the `.get` of a truthy reply that is not a dict raise; an undecodable
      or falsy reply is replaced by `{}` and shapes to all `False`. */
  function Shape(resp: Response): (r: Option<map<string, Value>>)
    ensures r.None? <==> resp.TransportError? || (resp.Reply? && Truthy(resp.body) && !resp.body.Dict?)
    ensures r.Some? ==> r.value.Keys == ProbeKeys
    ensures r.Some? ==> forall k :: k in ProbeKeys ==> r.value[k] == Field(resp, k)
  {
    if resp.TransportError? then None
    else
      var result := if Truthy(SafeJson(resp)) then SafeJson(resp) else Dict(map[]);
      if !result.Dict? then None
      else
        var d := result.fields;
        Some(map[
          "opaque_enabled" := Get(d, "opaque_enabled", Bool(false)),
          "srp_enabled" := Get(d, "srp_enabled", Bool(false)),
          "migration_available" := Get(d, "migration_available", Bool(false))])
  }

  /** The class version's answer to any failure. */
  const AllFalse: map<string, Value> :=
    map["opaque_enabled" := Bool(false), "srp_enabled" := Bool(false), "migration_available" := Bool(false)]
}
