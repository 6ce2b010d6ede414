/** `BaseCommand.host`: which configured host a command talks to. The
    configuration's named hosts and its primary host are inputs, as this
    model's `Config` holds a single `[host]` table. */
module Base {
  import opened Common
  import opened Config

  /** The `--host` option: none or "" selects the primary host, a known
      name selects that host, an unknown name exits with code 1. */
  function SelectHost(primary: HostConfig, hosts: Dict<string, HostConfig>, name: Option<string>): (r: Result<HostConfig>)
    ensures !Truthy(name) ==> r == Ok(primary)
    ensures r.Err? <==> Truthy(name) && name.value !in Keys(hosts)
    ensures r.Err? ==> r.error == Exit(1, "Host " + name.value + " does not exist")
    ensures Truthy(name) && r.Ok? ==> name.value in Keys(hosts) && r.value == Lookup(hosts, name.value)
  {
    if !Truthy(name) then Ok(primary)
    else if name.value in Keys(hosts) then Ok(Lookup(hosts, name.value))
    else Err(Exit(1, "Host " + name.value + " does not exist"))
  }

  /** With distinct host names, a named host is the one the `hosts` mapping
      holds under that name, and every selected host is the primary one or a
      configured one. */
  lemma SelectHostFromMapping(primary: HostConfig, hosts: Dict<string, HostConfig>, name: Option<string>)
    requires UniqueKeys(hosts)
    ensures Truthy(name) && name.value in ToMap(hosts) ==>
      SelectHost(primary, hosts, name) == Ok(ToMap(hosts)[name.value])
    ensures Truthy(name) && name.value !in ToMap(hosts) ==> SelectHost(primary, hosts, name).Err?
    ensures SelectHost(primary, hosts, name).Ok? ==>
      SelectHost(primary, hosts, name).value == primary ||
      SelectHost(primary, hosts, name).value in ToMap(hosts).Values
  {
    ToMapKeys(hosts);
    if Truthy(name) && name.value in Keys(hosts) {
      LookupToMap(hosts, name.value);
    }
  }
}
