/**
 * The adapter registry of the settled package (src/qal/__init__.py):
 * aliases to adapter classes and to the environment variable holding the
 * API key, the key lookup, and adapter construction by alias.
 */
module Registry {
  import opened Wrappers
  import opened Paging
  import opened Library

  /** One `register_api` call: the aliases, the environment variable, the adapter class. */
  datatype Registration = Registration(names: seq<string>, envVar: string, provider: Provider)

  /** The three registrations made when the package is imported, in order. */
  const Registrations: seq<Registration> := [
    Registration(["springer", "springer_link", "springer-link", "springer_nature", "springer-nature"],
                 "SPRINGER_LINK_API_KEY", SpringerNature),
    Registration(["ieee", "ieeexplore", "ieee_xplore", "ieee-xplore", "xplore"],
                 "IEEE_XPLORE_API_KEY", IeeeXplore),
    Registration(["science-direct", "sciencedirect", "elsevier"],
                 "SCIENCE_DIRECT_API_KEY", ScienceDirectSearch)]

  /** The variable consulted when an alias has no variable of its own. */
  const FallbackEnvVar: string := "LIBRARY_API_KEY"

  /** `for name in names: d[name] = v`: every alias maps to `v`, every other entry is kept. */
  function Register<V>(m: map<string, V>, names: seq<string>, v: V): (r: map<string, V>)
    ensures r.Keys == m.Keys + set n | n in names
    ensures forall n :: n in names ==> r[n] == v
    ensures forall n :: n in m && n !in names ==> r[n] == m[n]
    decreases |names|
  {
    if names == [] then m
    else Register(m, names[..|names| - 1], v)[names[|names| - 1] := v]
  }

  /** The alias table after a sequence of registrations. */
  function ApisOf(regs: seq<Registration>): map<string, Provider>
    decreases |regs|
  {
    if regs == [] then map[]
    else
      var last := regs[|regs| - 1];
      Register(ApisOf(regs[..|regs| - 1]), last.names, last.provider)
  }

  /** The environment-variable table after a sequence of registrations. */
  function EnvVarsOf(regs: seq<Registration>): map<string, string>
    decreases |regs|
  {
    if regs == [] then map[]
    else
      var last := regs[|regs| - 1];
      Register(EnvVarsOf(regs[..|regs| - 1]), last.names, last.envVar)
  }

  /** Both tables have the same aliases; each alias names the class and the variable of one registration. */
  lemma {:induction false} TablesAgree(regs: seq<Registration>)
    ensures ApisOf(regs).Keys == EnvVarsOf(regs).Keys
    ensures forall n :: n in ApisOf(regs) ==>
              exists i :: 0 <= i < |regs| && n in regs[i].names
                          && ApisOf(regs)[n] == regs[i].provider && EnvVarsOf(regs)[n] == regs[i].envVar
    decreases |regs|
  {
    if regs != [] {
      var init, last := regs[..|regs| - 1], regs[|regs| - 1];
      TablesAgree(init);
      forall n | n in ApisOf(regs)
        ensures exists i :: 0 <= i < |regs| && n in regs[i].names
                            && ApisOf(regs)[n] == regs[i].provider && EnvVarsOf(regs)[n] == regs[i].envVar
      {
        if n in last.names {
          assert regs[|regs| - 1] == last;
        } else {
          var i :| 0 <= i < |init| && n in init[i].names
                   && ApisOf(init)[n] == init[i].provider && EnvVarsOf(init)[n] == init[i].envVar;
          assert regs[i] == init[i];
        }
      }
    }
  }

  /** A later registration overrides an earlier one for the aliases it names. */
  lemma {:induction false} LastRegistrationWins(regs: seq<Registration>, i: nat, n: string)
    requires i < |regs| && n in regs[i].names
    requires forall j :: i < j < |regs| ==> n !in regs[j].names
    ensures n in ApisOf(regs) && ApisOf(regs)[n] == regs[i].provider
    ensures n in EnvVarsOf(regs) && EnvVarsOf(regs)[n] == regs[i].envVar
    decreases |regs|
  {
    if i < |regs| - 1 {
      var init := regs[..|regs| - 1];
      LastRegistrationWins(init, i, n);
    }
  }

  /** No alias is registered twice, and every variable name is non-empty. */
  lemma RegistrationsDistinct()
    ensures forall i, j, n :: 0 <= i < j < |Registrations| && n in Registrations[i].names ==> n !in Registrations[j].names
    ensures forall i :: 0 <= i < |Registrations| ==> Registrations[i].envVar != ""
  {
  }

  /**
   * `get_env_var`: a truthy explicit key wins; otherwise an alias with a
   * (non-empty) variable name reads that variable, with no fallback;
   * otherwise `LIBRARY_API_KEY` is read.
   */
  function EnvKey(envVarNames: map<string, string>, name: string, keyMaybe: Option<string>, environ: map<string, string>): Option<string> {
    if Truthy(keyMaybe) then keyMaybe
    else if name in envVarNames && envVarNames[name] != "" then Lookup(environ, envVarNames[name])
    else Lookup(environ, FallbackEnvVar)
  }

  /**
   * With the loaded tables: an explicit key is used as given; a registered
   * alias reads only the variable of its own registration, so an unset
   * variable gives no key even when `LIBRARY_API_KEY` is set; an unknown
   * name reads the fallback.
   */
  lemma KeyResolution(i: nat, name: string, keyMaybe: Option<string>, environ: map<string, string>)
    requires i < |Registrations| && name in Registrations[i].names
    ensures !Truthy(keyMaybe) ==>
              EnvKey(EnvVarsOf(Registrations), name, keyMaybe, environ) == Lookup(environ, Registrations[i].envVar)
    ensures Truthy(keyMaybe) ==> EnvKey(EnvVarsOf(Registrations), name, keyMaybe, environ) == keyMaybe
  {
    RegistrationsDistinct();
    LastRegistrationWins(Registrations, i, name);
  }

  /** A name no registration lists reads `LIBRARY_API_KEY` unless a key is given. */
  lemma UnknownNameFallsBack(name: string, keyMaybe: Option<string>, environ: map<string, string>)
    requires forall i :: 0 <= i < |Registrations| ==> name !in Registrations[i].names
    ensures name !in ApisOf(Registrations)
    ensures !Truthy(keyMaybe) ==> EnvKey(EnvVarsOf(Registrations), name, keyMaybe, environ) == Lookup(environ, FallbackEnvVar)
  {
    TablesAgree(Registrations);
  }

  /** The variables bundled with the adapters: each provider module's `sanitize_venue`. */
  datatype Venues = Venues(ieee: string -> string, springer: string -> string)

  /** The `sanitize_venue` an adapter of the class uses (Science Direct has none and uses no venue). */
  function CleanerOf(venues: Venues, p: Provider): string -> string {
    if p == SpringerNature then venues.springer else venues.ieee
  }

  /** The module-level registry: its two dictionaries grow in place. */
  class Registry {
    var apis: map<string, Provider>
    var envVarNames: map<string, string>

    /** The state after the package is imported: the three registrations, in order. */
    constructor Load()
      ensures apis == ApisOf(Registrations) && envVarNames == EnvVarsOf(Registrations)
    {
      apis := map[];
      envVarNames := map[];
      new;
      var i := 0;
      while i < |Registrations|
        invariant 0 <= i <= |Registrations|
        invariant apis == ApisOf(Registrations[..i]) && envVarNames == EnvVarsOf(Registrations[..i])
      {
        assert Registrations[..i + 1][..i] == Registrations[..i];
        RegisterApi(Registrations[i].names, Registrations[i].envVar, Registrations[i].provider);
        i := i + 1;
      }
      assert Registrations[..i] == Registrations;
    }

    /** `register_api`: every alias to the class and to the variable, in order. */
    method RegisterApi(names: seq<string>, envVar: string, api: Provider)
      modifies this
      ensures apis == Register(old(apis), names, api)
      ensures envVarNames == Register(old(envVarNames), names, envVar)
    {
      var i := 0;
      while i < |names|
        invariant 0 <= i <= |names|
        invariant apis == Register(old(apis), names[..i], api)
        invariant envVarNames == Register(old(envVarNames), names[..i], envVar)
      {
        assert names[..i + 1][..i] == names[..i];
        apis := apis[names[i] := api];
        envVarNames := envVarNames[names[i] := envVar];
        i := i + 1;
      }
      assert names[..i] == names;
    }

    /** `get_env_var` over the registry's variable table. */
    function GetEnvVar(name: string, keyMaybe: Option<string>, environ: map<string, string>): (r: Option<string>)
      reads this
      ensures Truthy(keyMaybe) ==> r == keyMaybe
      ensures !Truthy(keyMaybe) && name in envVarNames && envVarNames[name] != "" ==> r == Lookup(environ, envVarNames[name])
      ensures !Truthy(keyMaybe) && (name !in envVarNames || envVarNames[name] == "") ==> r == Lookup(environ, FallbackEnvVar)
    {
      EnvKey(envVarNames, name, keyMaybe, environ)
    }

    /** `get_env_var_name`: the variable registered for the alias, or None. */
    function GetEnvVarName(name: string): (r: Option<string>)
      reads this
      ensures r.Some? <==> name in envVarNames
      ensures r.Some? ==> r.value == envVarNames[name]
    {
      Lookup(envVarNames, name)
    }

    /** `make_api`: a fresh adapter with default page size and start, or None for an unknown alias. */
    method MakeApi(name: string, apiKey: Option<string>, venues: Venues) returns (api: DigitalLibrary?)
      ensures api == null <==> name !in apis
      ensures api != null ==>
                fresh(api) && api.Valid() && api.provider == apis[name] && api.apiKey == apiKey
                && api.sanitize == CleanerOf(venues, apis[name])
                && api.State() == Cursor(1, DefaultPageSizeOf(apis[name]), UnknownTotal, false)
                && api.options == map[] && api.queryData == map[]
    {
      var p := Lookup(apis, name);
      if p.None? {
        return null;
      }
      api := new DigitalLibrary(p.value, apiKey, DefaultPageSizeOf(p.value), 1, CleanerOf(venues, p.value));
    }
  }
}
