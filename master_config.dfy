/**
 * `master_database_configuration` (lib/seamless_database_pool.rb:143-161):
 * every pool configuration is replaced by the configuration of its master, so
 * that tools which only know the underlying adapters can use it.
 *
 * Keys are the symbolized key names; values are the few kinds a database
 * configuration holds.
 */
module MasterConfig {

  datatype Value = Str(s: string) | Num(n: int) | Bool(b: bool) | Hash(entries: map<string, Value>) | Nil

  /** Ruby truthiness: everything but nil and false. */
  predicate Truthy(v: Value)
  {
    v != Nil && v != Bool(false)
  }

  /** A database configuration: a plain hash, or one built from a URL. */
  datatype DbConfig =
    | HashConfig(envName: string, name: string, settings: map<string, Value>)
    | UrlConfig(envName: string, name: string, url: Value, settings: map<string, Value>)

  const PoolAdapterName := "seamless_database_pool"

  /** The keys only a pool configuration has. */
  const PoolKeys: set<string> := {"pool_adapter", "pool_weight", "master", "read_pool"}

  function Get(settings: map<string, Value>, key: string): Value
  {
    if key in settings then settings[key] else Nil
  }

  predicate IsPool(conf: DbConfig)
  {
    Get(conf.settings, "adapter") == Str(PoolAdapterName)
  }

  /** The master's own settings, without its weight; nothing when `master` is
      not a Hash. */
  function MasterOverrides(settings: map<string, Value>): map<string, Value>
  {
    match Get(settings, "master")
    case Hash(entries) => entries - {"pool_weight"}
    case _ => map[]
  }

  /** The key rewrite: drop the pool keys, merge in the master's settings, and
      make `pool_adapter` the adapter. */
  function Rewrite(settings: map<string, Value>): (r: map<string, Value>)
    ensures r.Keys == (settings.Keys - PoolKeys) + MasterOverrides(settings).Keys + {"adapter"}
    ensures r["adapter"] == Get(settings, "pool_adapter")
    ensures forall k :: k in r && k != "adapter" && k in MasterOverrides(settings) ==> r[k] == MasterOverrides(settings)[k]
    ensures forall k :: k in r && k != "adapter" && k !in MasterOverrides(settings) ==> k !in PoolKeys && r[k] == settings[k]
    ensures "pool_weight" !in r
  {
    (settings - PoolKeys) + MasterOverrides(settings) + map["adapter" := Get(settings, "pool_adapter")]
  }

  /** One configuration of `master_database_configuration`: other adapters
      pass through; a pool configuration is rewritten and keeps its URL, takes
      its `url` setting as the URL, or becomes a plain hash. */
  function MasterConfiguration(conf: DbConfig): (r: DbConfig)
    ensures !IsPool(conf) ==> r == conf
    ensures IsPool(conf) ==> r.envName == conf.envName && r.name == conf.name
    ensures IsPool(conf) && conf.UrlConfig? && Truthy(conf.url) ==>
      r == UrlConfig(conf.envName, conf.name, conf.url, Rewrite(conf.settings))
    ensures IsPool(conf) && !(conf.UrlConfig? && Truthy(conf.url)) ==>
      && "url" !in r.settings
      && r.settings == Rewrite(conf.settings) - {"url"}
      && (r.UrlConfig? <==> Truthy(Get(Rewrite(conf.settings), "url")))
      && (r.UrlConfig? ==> r.url == Rewrite(conf.settings)["url"])
  {
    if !IsPool(conf) then conf
    else
      var settings := Rewrite(conf.settings);
      if conf.UrlConfig? && Truthy(conf.url) then UrlConfig(conf.envName, conf.name, conf.url, settings)
      else
        var url := Get(settings, "url");
        if Truthy(url) then UrlConfig(conf.envName, conf.name, url, settings - {"url"})
        else HashConfig(conf.envName, conf.name, settings - {"url"})
  }

  /** `master_database_configuration`: every configuration, in order. */
  function MasterDatabaseConfiguration(configs: seq<DbConfig>): (r: seq<DbConfig>)
    ensures |r| == |configs|
    ensures forall i :: 0 <= i < |r| ==> r[i] == MasterConfiguration(configs[i])
  {
    seq(|configs|, i requires 0 <= i < |configs| => MasterConfiguration(configs[i]))
  }

  /** A rewritten configuration is no longer a pool configuration, unless its
      `pool_adapter` named the pool adapter itself. */
  lemma RewriteLeavesNoPool(conf: DbConfig)
    requires Get(conf.settings, "pool_adapter") != Str(PoolAdapterName)
    ensures !IsPool(MasterConfiguration(conf))
  {
    if IsPool(conf) {
      var r := MasterConfiguration(conf);
      assert "adapter" in r.settings && r.settings["adapter"] == Get(conf.settings, "pool_adapter");
    }
  }

  /** Across the whole list: when no `pool_adapter` names the pool adapter,
      only real adapters are left after the rewrite. */
  lemma NoPoolConfigurationRemains(configs: seq<DbConfig>)
    requires forall i :: 0 <= i < |configs| ==> Get(configs[i].settings, "pool_adapter") != Str(PoolAdapterName)
    ensures forall i :: 0 <= i < |configs| ==> !IsPool(MasterDatabaseConfiguration(configs)[i])
  {
    forall i | 0 <= i < |configs|
      ensures !IsPool(MasterDatabaseConfiguration(configs)[i])
    {
      RewriteLeavesNoPool(configs[i]);
    }
  }

  /** Under the same condition, rewriting twice is rewriting once. */
  lemma MasterConfigurationIdempotent(configs: seq<DbConfig>)
    requires forall i :: 0 <= i < |configs| ==> Get(configs[i].settings, "pool_adapter") != Str(PoolAdapterName)
    ensures MasterDatabaseConfiguration(MasterDatabaseConfiguration(configs)) == MasterDatabaseConfiguration(configs)
  {
    var once := MasterDatabaseConfiguration(configs);
    forall i | 0 <= i < |once| ensures MasterConfiguration(once[i]) == once[i] {
      RewriteLeavesNoPool(configs[i]);
    }
  }

  /** The adapter of a rewritten pool configuration is always `pool_adapter`,
      even when the master's own settings name another adapter. */
  lemma PoolAdapterWins(settings: map<string, Value>, masterAdapter: Value)
    requires "master" in settings && settings["master"].Hash?
    requires "adapter" in settings["master"].entries && settings["master"].entries["adapter"] == masterAdapter
    ensures Rewrite(settings)["adapter"] == Get(settings, "pool_adapter")
    ensures MasterOverrides(settings)["adapter"] == masterAdapter
  {
  }

  /** The development configuration of the documented example: a pool with a
      master host and weight and a read pool. */
  const DevelopmentSettings: map<string, Value> := map[
    "adapter" := Str(PoolAdapterName),
    "pool_adapter" := Str("mysql2"),
    "database" := Str("development"),
    "username" := Str("root"),
    "master" := Hash(map["host" := Str("localhost"), "pool_weight" := Num(2)]),
    "read_pool" := Hash(map["host" := Str("slavehost"), "pool_weight" := Num(5)])]

  /** What the example expects the development configuration to become. */
  const DevelopmentMaster: map<string, Value> := map[
    "adapter" := Str("mysql2"),
    "database" := Str("development"),
    "username" := Str("root"),
    "host" := Str("localhost")]

  /** The example's settings other than the pool keys. */
  const DevelopmentKept: map<string, Value> :=
    map["adapter" := Str(PoolAdapterName), "database" := Str("development"), "username" := Str("root")]

  lemma DevelopmentDropsPoolKeys()
    ensures DevelopmentSettings - PoolKeys == DevelopmentKept
  {
    assert (DevelopmentSettings - PoolKeys).Keys == DevelopmentKept.Keys;
  }

  lemma DevelopmentMasterOverrides()
    ensures MasterOverrides(DevelopmentSettings) == map["host" := Str("localhost")]
  {
  }

  lemma DevelopmentMerge()
    ensures DevelopmentKept + map["host" := Str("localhost")] + map["adapter" := Str("mysql2")] == DevelopmentMaster
  {
  }

  /** The key rewrite of the example's development settings. */
  lemma DevelopmentRewrite()
    ensures Rewrite(DevelopmentSettings) == DevelopmentMaster
  {
    DevelopmentDropsPoolKeys();
    DevelopmentMasterOverrides();
    DevelopmentMerge();
    assert Get(DevelopmentSettings, "pool_adapter") == Str("mysql2");
  }

  lemma NoUrlToDrop(settings: map<string, Value>)
    requires "url" !in settings
    ensures settings - {"url"} == settings
  {
  }

  /** The pool configuration of the example becomes the master's plain
      configuration under the pool adapter; the plain test configuration is
      kept as is. */
  lemma DevelopmentExample()
    ensures var test := HashConfig("test", "primary", map["adapter" := Str("mysql2"), "database" := Str("test")]);
      MasterDatabaseConfiguration([HashConfig("development", "primary", DevelopmentSettings), test])
        == [HashConfig("development", "primary", DevelopmentMaster), test]
  {
    var test := HashConfig("test", "primary", map["adapter" := Str("mysql2"), "database" := Str("test")]);
    var dev := HashConfig("development", "primary", DevelopmentSettings);
    TwoConfigurations(dev, test);
    DevelopmentConfiguration();
    PlainConfigurationKept(test);
  }

  lemma TwoConfigurations(first: DbConfig, second: DbConfig)
    ensures MasterDatabaseConfiguration([first, second]) == [MasterConfiguration(first), MasterConfiguration(second)]
  {
  }

  lemma DevelopmentConfiguration()
    ensures MasterConfiguration(HashConfig("development", "primary", DevelopmentSettings))
         == HashConfig("development", "primary", DevelopmentMaster)
  {
    DevelopmentRewrite();
    assert Get(DevelopmentSettings, "adapter") == Str(PoolAdapterName);
    assert Get(DevelopmentMaster, "url") == Nil;
    NoUrlToDrop(DevelopmentMaster);
  }

  lemma PlainConfigurationKept(conf: DbConfig)
    requires Get(conf.settings, "adapter") == Str("mysql2")
    ensures MasterConfiguration(conf) == conf
  {
  }
}
