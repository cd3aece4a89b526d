/**
 * OAuth provider registration: the public base URL of the server, the
 * callback URL of each provider, and the registration of the providers
 * whose key and secret the environment supplies.  The environment and the
 * operating system's host name are parameters; a provider is whatever
 * its factory builds (the type parameter `P`).
 */
module OAuth {
  import opened Wrappers
  import opened Decimal
  import opened Text

  /** The process environment; an unset variable reads as "". */
  type Environment = map<string, string>

  function Getenv(env: Environment, name: string): (v: string)
    ensures name in env ==> v == env[name]
    ensures name !in env ==> v == ""
  {
    if name in env then env[name] else ""
  }

  const CallbackPath: string := "/api/oauth/callback/"

  /**
   * `Hostname`: HOSTNAME when set, else the operating system's host name
   * (None when asking for it fails), else "localhost".
   */
  function Hostname(env: Environment, osHostname: Option<string>): (h: string)
    ensures Getenv(env, "HOSTNAME") != "" ==> h == Getenv(env, "HOSTNAME")
    ensures Getenv(env, "HOSTNAME") == "" && osHostname.Some? ==> h == osHostname.value
    ensures Getenv(env, "HOSTNAME") == "" && osHostname.None? ==> h == "localhost"
  {
    var fromEnv := Getenv(env, "HOSTNAME");
    if |fromEnv| > 0 then fromEnv
    else if osHostname.Some? then osHostname.value
    else "localhost"
  }

  function Scheme(secure: bool): string {
    if secure then "https" else "http"
  }

  function PortVariable(secure: bool): string {
    if secure then "HTTPS_PORT" else "HTTP_PORT"
  }

  /** The port a scheme implies: 80 for http, 443 for https. */
  function DefaultPort(secure: bool): int {
    if secure then 443 else 80
  }

  /**
   * `getBaseURL`: scheme and host, followed by the port from HTTPS_PORT
   * (or HTTP_PORT) when that parses as a 64-bit integer other than the
   * scheme's default.
   */
  function GetBaseURL(secure: bool, env: Environment, osHostname: Option<string>): (url: string)
    ensures var port := ParseInt(Getenv(env, PortVariable(secure)), W64);
      var prefix := Scheme(secure) + "://" + Hostname(env, osHostname);
      && (port.err != NoError || port.value == DefaultPort(secure) ==> url == prefix)
      && (port.err == NoError && port.value != DefaultPort(secure) ==> url == prefix + ":" + FormatInt(port.value))
  {
    var scheme := if secure then "https" else "http";
    var portVar := if secure then "HTTPS_PORT" else "HTTP_PORT";
    var hostname := Hostname(env, osHostname);
    var port := ParseInt(Getenv(env, portVar), W64);
    if port.err == NoError then
      if (!secure && port.value == 80) || (secure && port.value == 443) then scheme + "://" + hostname
      else scheme + "://" + hostname + ":" + FormatInt(port.value)
    else scheme + "://" + hostname
  }

  /** The callback URL of a provider: the base URL without trailing '/', the callback path, the name. */
  function CallbackURL(baseURL: string, provider: string): (url: string)
    ensures url == TrimRight(baseURL, '/') + CallbackPath + provider
    ensures var base := TrimRight(baseURL, '/'); base == [] || base[|base| - 1] != '/'
  {
    TrimRight(baseURL, '/') + CallbackPath + provider
  }

  /** A provider factory: client key, secret and callback URL to a provider. */
  type Factory<P> = (string, string, string) -> P

  /**
   * `makeProvider`: no provider unless `<NAME>_KEY` and `<NAME>_SECRET`
   * (the name upper-cased) are both set; otherwise the factory's provider
   * for the https callback URL.
   */
  function MakeProvider<P>(env: Environment, osHostname: Option<string>, provider: string, factory: Factory<P>)
    : (p: Option<P>)
    ensures var key := Getenv(env, ToUpper(provider) + "_KEY");
      var secret := Getenv(env, ToUpper(provider) + "_SECRET");
      && (p.None? <==> key == "" || secret == "")
      && (p.Some? ==> p.value == factory(key, secret, CallbackURL(GetBaseURL(true, env, osHostname), provider)))
  {
    var upper := ToUpper(provider);
    var key := Getenv(env, upper + "_KEY");
    var secret := Getenv(env, upper + "_SECRET");
    if |key| == 0 || |secret| == 0 then None
    else
      var baseURL := TrimRight(GetBaseURL(true, env, osHostname), '/');
      Some(factory(key, secret, baseURL + CallbackPath + provider))
  }

  /** An argument of `WithProviders`: a provider name or a factory. */
  datatype ProviderArg<P> = NameArg(name: string) | FactoryArg(factory: Factory<P>)

  /** Arguments alternate name, factory; a trailing odd argument is not part of a pair. */
  predicate WellPaired<P>(args: seq<ProviderArg<P>>) {
    forall i | 0 <= i < |args| ::
      (i % 2 == 0 && i + 1 < |args| ==> args[i].NameArg?) && (i % 2 == 1 ==> args[i].FactoryArg?)
  }

  /** The number of complete (name, factory) pairs. */
  function PairCount<P>(args: seq<ProviderArg<P>>): (n: nat)
    ensures 2 * n <= |args| < 2 * n + 2
  {
    |args| / 2
  }

  /** The provider made from the `k`-th pair. */
  function PairProvider<P>(args: seq<ProviderArg<P>>, env: Environment, osHostname: Option<string>, k: nat)
    : Option<P>
    requires WellPaired(args) && 2 * k + 1 < |args|
  {
    assert (2 * k) % 2 == 0 && (2 * k + 1) % 2 == 1;
    MakeProvider(env, osHostname, args[2 * k].name, args[2 * k + 1].factory)
  }

  function PairName<P>(args: seq<ProviderArg<P>>, k: nat): string
    requires WellPaired(args) && 2 * k + 1 < |args|
  {
    assert (2 * k) % 2 == 0;
    args[2 * k].name
  }

  /** The `k`-th pair is a name followed by a factory, and it makes `PairProvider`. */
  lemma PairAt<P>(args: seq<ProviderArg<P>>, env: Environment, osHostname: Option<string>, k: nat)
    requires WellPaired(args) && 2 * k + 1 < |args|
    ensures args[2 * k].NameArg? && args[2 * k + 1].FactoryArg? && PairName(args, k) == args[2 * k].name
    ensures PairProvider(args, env, osHostname, k)
      == MakeProvider(env, osHostname, args[2 * k].name, args[2 * k + 1].factory)
  {
    assert (2 * k) % 2 == 0 && (2 * k + 1) % 2 == 1;
  }

  /** An argument after the last complete pair leaves the arguments well paired. */
  lemma WellPairedAppend<P>(args: seq<ProviderArg<P>>, extra: ProviderArg<P>)
    requires WellPaired(args) && |args| % 2 == 0
    ensures WellPaired(args + [extra]) && PairCount(args + [extra]) == PairCount(args)
  {
    var longer := args + [extra];
    forall i | 0 <= i < |longer|
      ensures (i % 2 == 0 && i + 1 < |longer| ==> longer[i].NameArg?) && (i % 2 == 1 ==> longer[i].FactoryArg?)
    {
      if i < |args| {
        assert longer[i] == args[i];
      }
    }
  }

  /** A complete pair as `WithProviders` sees it: the name, and the provider made for it if any. */
  datatype Made<P> = Made(name: string, provider: Option<P>)

  /** What each complete pair of the arguments makes, in argument order. */
  function Pairs<P>(args: seq<ProviderArg<P>>, env: Environment, osHostname: Option<string>): (ps: seq<Made<P>>)
    requires WellPaired(args)
    ensures |ps| == PairCount(args)
  {
    seq(PairCount(args), k requires 0 <= k < PairCount(args) =>
      Made(PairName(args, k), PairProvider(args, env, osHostname, k)))
  }

  /** The names of the providers made by the first `n` pairs, in order. */
  function EnabledNames<P>(ps: seq<Made<P>>, n: nat): seq<string>
    requires n <= |ps|
  {
    if n == 0 then []
    else EnabledNames(ps, n - 1) + (if ps[n - 1].provider.Some? then [ps[n - 1].name] else [])
  }

  /** The providers made by the first `n` pairs, in order. */
  function EnabledProviders<P>(ps: seq<Made<P>>, n: nat): seq<P>
    requires n <= |ps|
  {
    if n == 0 then []
    else EnabledProviders(ps, n - 1) + (if ps[n - 1].provider.Some? then [ps[n - 1].provider.value] else [])
  }

  /** The name of the pair at `i` and what its factory makes, as `WithProviders` reads them. */
  method MakePair<P>(args: seq<ProviderArg<P>>, env: Environment, osHostname: Option<string>, i: nat, ghost k: nat)
    returns (name: string, provider: Option<P>)
    requires WellPaired(args) && i == 2 * k && i + 1 < |args|
    ensures k < PairCount(args) && Made(name, provider) == Pairs(args, env, osHostname)[k]
  {
    PairAt(args, env, osHostname, k);
    name := args[i].name;
    provider := MakeProvider(env, osHostname, name, args[i + 1].factory);
  }

  /** The package-level registration state: `providerNames` and the providers handed to goth. */
  class Registry<P> {
    var providerNames: seq<string>
    var registered: seq<P>

    constructor ()
      ensures providerNames == [] && registered == []
    {
      providerNames, registered := [], [];
    }

    /**
     * `WithProviders`: resets the names, then walks the arguments in
     * (name, factory) pairs and registers every provider that was made.
     */
    method WithProviders(args: seq<ProviderArg<P>>, env: Environment, osHostname: Option<string>)
      requires WellPaired(args)
      modifies this
      ensures providerNames == EnabledNames(Pairs(args, env, osHostname), PairCount(args))
      ensures registered == old(registered) + EnabledProviders(Pairs(args, env, osHostname), PairCount(args))
    {
      ghost var ps := Pairs(args, env, osHostname);
      providerNames := [];
      var gothProviders: seq<P> := [];
      var i := 0;
      ghost var k: nat := 0;
      while i + 1 < |args|
        invariant i == 2 * k && k <= |ps|
        invariant providerNames == EnabledNames(ps, k)
        invariant gothProviders == EnabledProviders(ps, k)
        invariant registered == old(registered)
        decreases |args| - i
      {
        var name, provider := MakePair(args, env, osHostname, i, k);
        if provider.Some? {
          providerNames := providerNames + [name];
          gothProviders := gothProviders + [provider.value];
        }
        i := i + 2;
        k := k + 1;
      }
      registered := registered + gothProviders;
    }
  }

  // ---------------------------------------------------------------------
  // Properties

  /**
   * A port given in decimal within 64 bits is dropped when it is the
   * scheme's default and appended otherwise; an unset or unparseable one
   * gives no port.
   */
  lemma BaseURLPort(secure: bool, env: Environment, osHostname: Option<string>, port: int)
    requires -Cutoff(W64) <= port < Cutoff(W64)
    requires Getenv(env, PortVariable(secure)) == FormatInt(port)
    ensures port == DefaultPort(secure) ==>
      GetBaseURL(secure, env, osHostname) == Scheme(secure) + "://" + Hostname(env, osHostname)
    ensures port != DefaultPort(secure) ==>
      GetBaseURL(secure, env, osHostname) == Scheme(secure) + "://" + Hostname(env, osHostname) + ":" + FormatInt(port)
  {
    ParseFormatInt(port, W64);
  }

  /** Without a port variable the base URL is scheme and host alone. */
  lemma BaseURLWithoutPort(secure: bool, env: Environment, osHostname: Option<string>)
    requires PortVariable(secure) !in env
    ensures GetBaseURL(secure, env, osHostname) == Scheme(secure) + "://" + Hostname(env, osHostname)
  {
  }

  /** A provider's callback URL, for a host without a trailing '/', under the default https port. */
  lemma CallbackURLOnDefaultPort(env: Environment, osHostname: Option<string>, provider: string, host: string)
    requires "HTTPS_PORT" !in env && Getenv(env, "HOSTNAME") == host && host != [] && host[|host| - 1] != '/'
    ensures CallbackURL(GetBaseURL(true, env, osHostname), provider) == "https://" + host + CallbackPath + provider
  {
    BaseURLWithoutPort(true, env, osHostname);
    var base := "https://" + host;
    assert GetBaseURL(true, env, osHostname) == base;
    assert base[|base| - 1] == host[|host| - 1];
    assert TrimRight(base, '/') == base;
  }

  /** At most one name per pair is registered, and exactly one per provider. */
  lemma {:induction false} EnabledNamesBound<P>(ps: seq<Made<P>>, n: nat)
    requires n <= |ps|
    ensures |EnabledNames(ps, n)| <= n
    ensures |EnabledNames(ps, n)| == |EnabledProviders(ps, n)|
  {
    if n > 0 {
      EnabledNamesBound(ps, n - 1);
    }
  }

  /**
   * Every registered name is the name of a pair whose provider was made,
   * and pairs that make no provider contribute no name.
   */
  lemma {:induction false} EnabledNamesAreEnabledPairs<P>(ps: seq<Made<P>>, n: nat)
    requires n <= |ps|
    ensures forall j | 0 <= j < |EnabledNames(ps, n)| ::
      exists k | 0 <= k < n :: ps[k].name == EnabledNames(ps, n)[j] && ps[k].provider.Some?
    ensures (forall k | 0 <= k < n :: ps[k].provider.None?) ==> EnabledNames(ps, n) == []
  {
    if n > 0 {
      EnabledNamesAreEnabledPairs(ps, n - 1);
      var prev := EnabledNames(ps, n - 1);
      var cur := EnabledNames(ps, n);
      forall j | 0 <= j < |cur|
        ensures exists k | 0 <= k < n :: ps[k].name == cur[j] && ps[k].provider.Some?
      {
        if j < |prev| {
          assert cur[j] == prev[j];
          var k :| 0 <= k < n - 1 && ps[k].name == prev[j] && ps[k].provider.Some?;
          assert ps[k].name == cur[j];
        } else {
          assert ps[n - 1].provider.Some? && cur[j] == ps[n - 1].name;
        }
      }
      if forall k | 0 <= k < n :: ps[k].provider.None? {
        assert ps[n - 1].provider.None?;
      }
    } else {
      assert EnabledNames(ps, n) == [];
    }
  }

  /** A pair's entry is its name and what its factory makes; it makes nothing without both keys. */
  lemma PairsMeaning<P>(args: seq<ProviderArg<P>>, env: Environment, osHostname: Option<string>, k: nat)
    requires WellPaired(args) && k < PairCount(args)
    ensures args[2 * k].NameArg? && args[2 * k + 1].FactoryArg?
    ensures Pairs(args, env, osHostname)[k].name == args[2 * k].name
    ensures Pairs(args, env, osHostname)[k].provider == MakeProvider(env, osHostname, args[2 * k].name, args[2 * k + 1].factory)
  {
    PairAt(args, env, osHostname, k);
  }

  /** A trailing argument without a partner is ignored. */
  lemma TrailingArgumentIgnored<P>(args: seq<ProviderArg<P>>, extra: ProviderArg<P>,
                                   env: Environment, osHostname: Option<string>)
    requires WellPaired(args) && |args| % 2 == 0
    ensures WellPaired(args + [extra]) && Pairs(args + [extra], env, osHostname) == Pairs(args, env, osHostname)
  {
    var longer := args + [extra];
    WellPairedAppend(args, extra);
    forall k | 0 <= k < PairCount(args)
      ensures Pairs(longer, env, osHostname)[k] == Pairs(args, env, osHostname)[k]
    {
      assert longer[2 * k] == args[2 * k] && longer[2 * k + 1] == args[2 * k + 1];
      PairAt(args, env, osHostname, k);
      PairAt(longer, env, osHostname, k);
    }
  }
}
