// Middleware configuration: the default record and `extend(defaultConfig, config || {})`,
// which both middleware factories apply once when they are created.

module MashapeConfig {
  import opened JsSemantics

  /** One entry of `additionalHeaderChecks`: the header to read and the value it must
      carry; a missing or empty `value` makes the check fail for every request. */
  datatype HeaderCheck = HeaderCheck(name: string, value: Option<string>)

  /** The merged configuration a filter closure reads. `None` in an `Option` field is
      JavaScript `null`: a `null` iplist and an empty one behave differently. */
  datatype Config = Config(
    iplist: Option<seq<string>>,
    proxySecret: Option<string>,
    errorCode: int,
    errorMessage: string,
    strict: bool,
    log: bool,
    debug: bool,
    additionalHeaderChecks: Option<seq<HeaderCheck>>,
    whitelist: Option<seq<string>>)

  const DefaultConfig: Config := Config(
    iplist := None,
    proxySecret := None,
    errorCode := 403,
    errorMessage := "Forbidden",
    strict := true,
    log := true,
    debug := false,
    additionalHeaderChecks := Some([]),
    whitelist := Some([]))

  /** The object a caller passes to `ipFilter`/`headerFilter`: for each key, `None`
      when the caller did not set it, `Some(v)` when it did (`v` may itself be `null`). */
  datatype Overrides = Overrides(
    iplist: Option<Option<seq<string>>>,
    proxySecret: Option<Option<string>>,
    errorCode: Option<int>,
    errorMessage: Option<string>,
    strict: Option<bool>,
    log: Option<bool>,
    debug: Option<bool>,
    additionalHeaderChecks: Option<Option<seq<HeaderCheck>>>,
    whitelist: Option<Option<seq<string>>>)

  /** `{}`: an object with no keys. */
  const NoOverrides: Overrides := Overrides(None, None, None, None, None, None, None, None, None)

  /** `config || {}`: a missing configuration object supplies no keys. */
  function Given(user: Option<Overrides>): (o: Overrides)
  {
    if user.Some? then user.value else NoOverrides
  }

  function Pick<T>(supplied: Option<T>, default: T): (v: T)
  {
    if supplied.Some? then supplied.value else default
  }

  /** `extend(defaultConfig, config || {})`: each key the caller sets wins over the default,
      each key it leaves out keeps its default. */
  function Extend(user: Option<Overrides>): (c: Config)
    ensures Given(user).iplist.Some? ==> c.iplist == Given(user).iplist.value
    ensures Given(user).iplist.None? ==> c.iplist == None
    ensures Given(user).proxySecret.Some? ==> c.proxySecret == Given(user).proxySecret.value
    ensures Given(user).proxySecret.None? ==> c.proxySecret == None
    ensures Given(user).errorCode.Some? ==> c.errorCode == Given(user).errorCode.value
    ensures Given(user).errorCode.None? ==> c.errorCode == 403
    ensures Given(user).errorMessage.Some? ==> c.errorMessage == Given(user).errorMessage.value
    ensures Given(user).errorMessage.None? ==> c.errorMessage == "Forbidden"
    ensures Given(user).strict.Some? ==> c.strict == Given(user).strict.value
    ensures Given(user).strict.None? ==> c.strict
    ensures Given(user).log.Some? ==> c.log == Given(user).log.value
    ensures Given(user).log.None? ==> c.log
    ensures Given(user).debug.Some? ==> c.debug == Given(user).debug.value
    ensures Given(user).debug.None? ==> !c.debug
    ensures Given(user).additionalHeaderChecks.Some? ==>
              c.additionalHeaderChecks == Given(user).additionalHeaderChecks.value
    ensures Given(user).additionalHeaderChecks.None? ==> c.additionalHeaderChecks == Some([])
    ensures Given(user).whitelist.Some? ==> c.whitelist == Given(user).whitelist.value
    ensures Given(user).whitelist.None? ==> c.whitelist == Some([])
  {
    var u := Given(user);
    Config(
      iplist := Pick(u.iplist, DefaultConfig.iplist),
      proxySecret := Pick(u.proxySecret, DefaultConfig.proxySecret),
      errorCode := Pick(u.errorCode, DefaultConfig.errorCode),
      errorMessage := Pick(u.errorMessage, DefaultConfig.errorMessage),
      strict := Pick(u.strict, DefaultConfig.strict),
      log := Pick(u.log, DefaultConfig.log),
      debug := Pick(u.debug, DefaultConfig.debug),
      additionalHeaderChecks := Pick(u.additionalHeaderChecks, DefaultConfig.additionalHeaderChecks),
      whitelist := Pick(u.whitelist, DefaultConfig.whitelist))
  }

  /** Every key of `c` written out as caller-supplied. */
  function AllKeys(c: Config): Overrides
  {
    Overrides(Some(c.iplist), Some(c.proxySecret), Some(c.errorCode), Some(c.errorMessage),
              Some(c.strict), Some(c.log), Some(c.debug), Some(c.additionalHeaderChecks),
              Some(c.whitelist))
  }

  /** Without a configuration object, or with `{}`, a filter runs on the defaults;
      a configuration object that sets every key replaces the defaults entirely. */
  lemma ExtendDefaultsAndOverrides(c: Config)
    ensures Extend(None) == DefaultConfig
    ensures Extend(Some(NoOverrides)) == DefaultConfig
    ensures Extend(Some(AllKeys(c))) == c
  {
  }
}
