// The service registry: a mutable name -> options dictionary with register, remove and
// info, the request header it attaches to outbound calls, and the lookup `call` starts with.

module Services {
  import opened JsSemantics

  const DirectoryName: string := "mashape"
  const KeyHeader: string := "X-Mashape-Key"

  /** The `url` object of a service's options. */
  datatype Url = Url(protocol: string, hostname: string)

  /** The options object a service is registered with. */
  datatype ServiceOptions = ServiceOptions(url: Url)

  /** The entry registered at construction when `autodiscovery` is on. */
  const DirectoryOptions: ServiceOptions := ServiceOptions(Url("https:", "mashape.p.mashape.com"))

  /** The container's configuration keys that the registry reads. */
  datatype ContainerConfig = ContainerConfig(autodiscovery: bool, debug: bool, mashapeKey: Option<string>)

  /** What a `services` slot holds: `None` is a falsy value (`null`, `undefined`) stored by
      `register(name, null)`, which keeps the key but counts as no service. */
  type Services = map<string, Option<ServiceOptions>>

  datatype ServiceError = UnknownService(message: string)

  /** The error message `info` intends: it names the unknown service. */
  function UnknownServiceMessage(name: string): (m: string)
    ensures |m| == 17 + |name|
    ensures m[..17] == "Unknown service: " && m[17..] == name
  {
    "Unknown service: " + name
  }

  /** `new Error('Unknown service: %s', name)` as written: `Error` does not format its
      message, so the placeholder stays and the name is dropped. */
  function UnknownServiceMessageAsWritten(name: string): (m: string)
  {
    "Unknown service: %s"
  }

  /** The message as written cannot tell two unknown services apart... */
  lemma AsWrittenMessageLosesName()
    ensures UnknownServiceMessageAsWritten("germanbanks") == UnknownServiceMessageAsWritten("mashape")
  {
  }

  /** ...while the intended message identifies the service. */
  lemma {:induction false} UnknownServiceMessageNamesService(n1: string, n2: string)
    requires n1 != n2
    ensures UnknownServiceMessage(n1) != UnknownServiceMessage(n2)
  {
    assert UnknownServiceMessage(n1)[17..] == n1;
    assert UnknownServiceMessage(n2)[17..] == n2;
  }

  /** `if (this.services[name])`: a slot is live when it holds a truthy value. */
  predicate Live(services: Services, name: string)
  {
    name in services && services[name].Some?
  }

  /** `info(name)`: the stored options, or the unknown-service error. */
  function Lookup(services: Services, name: string): (r: Result<ServiceOptions, ServiceError>)
    ensures r.Success? <==> Live(services, name)
    ensures r.Success? ==> Some(r.value) == services[name]
    ensures r.Failure? ==> r.error == UnknownService(UnknownServiceMessage(name))
  {
    if Live(services, name) then Success(services[name].value)
    else Failure(UnknownService(UnknownServiceMessage(name)))
  }

  /** `services[name] = options` */
  function Registered(services: Services, name: string, options: Option<ServiceOptions>): (s: Services)
    ensures name in s && s[name] == options
    ensures s.Keys == services.Keys + {name}
    ensures forall n :: n in services && n != name ==> s[n] == services[n]
  {
    services[name := options]
  }

  /** `if (services[name]) delete services[name]` */
  function Removed(services: Services, name: string): (s: Services)
    ensures !Live(s, name)
    ensures Live(services, name) ==> s.Keys == services.Keys - {name}
    ensures !Live(services, name) ==> s == services
    ensures forall n :: n in s ==> n in services && s[n] == services[n]
  {
    if Live(services, name) then services - {name} else services
  }

  /** Registering twice is registering once. */
  lemma RegisterIdempotent(services: Services, name: string, options: Option<ServiceOptions>)
    ensures Registered(Registered(services, name, options), name, options)
            == Registered(services, name, options)
  {
  }

  /** Removing is idempotent, and removing an absent name changes nothing. */
  lemma RemoveIdempotent(services: Services, name: string)
    ensures Removed(Removed(services, name), name) == Removed(services, name)
    ensures name !in services ==> Removed(services, name) == services
  {
  }

  /** Lookup after update: a registered truthy options object is what `info` returns, a
      removed name is unknown, and neither touches the answer for any other name. */
  lemma {:induction false} LookupAfterUpdate(services: Services, name: string, other: string, options: ServiceOptions)
    requires other != name
    ensures Lookup(Registered(services, name, Some(options)), name) == Success(options)
    ensures Lookup(Registered(services, name, None), name).Failure?
    ensures Lookup(Removed(services, name), name).Failure?
    ensures Lookup(Registered(services, name, Some(options)), other) == Lookup(services, other)
    ensures Lookup(Removed(services, name), other) == Lookup(services, other)
  {
    var r := Removed(services, name);
    assert Live(r, other) <==> Live(services, other);
  }

  /** A request `call` would hand to the HTTP client: the verb, the service's URL extended
      with the path and query, and the key header. */
  datatype OutboundRequest = OutboundRequest(
    verb: string, protocol: string, hostname: string, pathname: string,
    query: map<string, string>, headers: map<string, Option<string>>)

  class ServiceContainer {
    const config: ContainerConfig
    var services: Services

    constructor (config: ContainerConfig)
      ensures this.config == config
      ensures !config.autodiscovery ==> services == map[]
      ensures config.autodiscovery ==> services == map[DirectoryName := Some(DirectoryOptions)]
    {
      this.config := config;
      services := map[];
      new;
      if config.autodiscovery {
        var _ := Register(DirectoryName, Some(DirectoryOptions));
      }
    }

    /** `register(name, options)`: sets the slot, overwriting, and returns the container
        (also what a callback receives, with a null error). */
    method Register(name: string, options: Option<ServiceOptions>) returns (self: ServiceContainer)
      modifies this
      ensures self == this
      ensures services == Registered(old(services), name, options)
    {
      services := services[name := options];
      return this;
    }

    /** `remove(name)`: deletes a live slot, never fails, and returns the container. */
    method Remove(name: string) returns (self: ServiceContainer)
      modifies this
      ensures self == this
      ensures services == Removed(old(services), name)
    {
      if name in services && services[name].Some? {
        services := services - {name};
      }
      return this;
    }

    /** `info(name)`: the live options, or the error it throws (or passes to a callback). */
    method Info(name: string) returns (r: Result<ServiceOptions, ServiceError>)
      ensures r.Success? <==> Live(services, name)
      ensures r.Success? ==> services[name] == Some(r.value)
      ensures r.Failure? ==> r.error == UnknownService(UnknownServiceMessage(name))
    {
      if name in services && services[name].Some? {
        return Success(services[name].value);
      }
      return Failure(UnknownService(UnknownServiceMessage(name)));
    }

    /** `headers()`: the one header every outbound call carries. */
    function Headers(): (h: map<string, Option<string>>)
      ensures h.Keys == {KeyHeader}
      ensures h[KeyHeader] == config.mashapeKey
    {
      map[KeyHeader := config.mashapeKey]
    }

    /** `call(name, verb, path, parameters)` up to the request it issues: an unknown name
        fails inside `info` before any request exists. */
    method Call(name: string, verb: string, path: string, parameters: map<string, string>)
      returns (r: Result<OutboundRequest, ServiceError>)
      ensures !Live(services, name) ==> r == Failure(UnknownService(UnknownServiceMessage(name)))
      ensures Live(services, name) ==>
                var url := services[name].value.url;
                r == Success(OutboundRequest(verb, url.protocol, url.hostname, path, parameters, Headers()))
    {
      var service := Info(name);
      if service.Failure? {
        return Failure(service.error);
      }
      var url := service.value.url;
      return Success(OutboundRequest(verb, url.protocol, url.hostname, path, parameters, Headers()));
    }
  }

  /** A container built with autodiscovery answers `info('mashape')` with the directory
      service; one built without it knows no service at all. */
  method ConstructionScenario(key: Option<string>, name: string)
    returns (found: Result<ServiceOptions, ServiceError>, missing: Result<ServiceOptions, ServiceError>)
    ensures found == Success(DirectoryOptions)
    ensures missing == Failure(UnknownService(UnknownServiceMessage(name)))
  {
    var withDirectory := new ServiceContainer(ContainerConfig(true, false, key));
    found := withDirectory.Info(DirectoryName);
    var empty := new ServiceContainer(ContainerConfig(false, false, key));
    missing := empty.Info(name);
  }
}
