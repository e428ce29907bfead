/**
 * The one worked example the post-processor is pinned down by: a config with
 * an old `disable_track_param` and a MySQL connection, merged with a full set
 * of simplified keys. The result is the expected nested config with the
 * simplified keys still on top.
 */
module ConfigExample {
  import opened Wrappers
  import opened ConfigTree
  import opened ConfigPostProcessor

  const Connection: Config := map["driver" := Str("mysql"), "host" := Str("shlink_db"), "port" := Str("3306")]

  const DbConfig: Config :=
    map["dbname" := Str("shlink"), "user" := Str("foo"), "password" := Str("bar"), "port" := Str("1234")]

  const ExampleConfig: Config := map[
    "app_options" := Obj(map["disable_track_param" := Str("foo")]),
    "entity_manager" := Obj(map["connection" := Obj(Connection)])
  ]

  const ExampleSimplified: Config := map[
    "disable_track_param" := Str("bar"),
    "short_domain_schema" := Str("https"),
    "short_domain_host" := Str("doma.in"),
    "validate_url" := Bool(false),
    "delete_short_url_threshold" := Int(50),
    "locale" := Str("es"),
    "not_found_redirect_to" := Str("foobar.com"),
    "db_config" := Obj(DbConfig)
  ]

  const ExampleExpected: Config := map[
    "app_options" := Obj(map["disable_track_param" := Str("bar")]),
    "entity_manager" := Obj(map["connection" := Obj(map[
      "driver" := Str("mysql"), "host" := Str("shlink_db"),
      "dbname" := Str("shlink"), "user" := Str("foo"), "password" := Str("bar"), "port" := Str("1234")])]),
    "url_shortener" := Obj(map[
      "domain" := Obj(map["schema" := Str("https"), "hostname" := Str("doma.in")]),
      "validate_url" := Bool(false),
      "not_found_short_url" := Obj(map["redirect_to" := Str("foobar.com"), "enable_redirection" := Bool(true)])
    ]),
    "translator" := Obj(map["locale" := Str("es")]),
    "delete_short_urls" := Obj(map["visits_threshold" := Int(50), "check_visits_threshold" := Bool(true)])
  ]

  /** The input of the example: the config with the simplified keys merged on top. */
  const Input: Config := map[
    "app_options" := Obj(map["disable_track_param" := Str("foo")]),
    "entity_manager" := Obj(map["connection" := Obj(Connection)]),
    "disable_track_param" := Str("bar"),
    "short_domain_schema" := Str("https"),
    "short_domain_host" := Str("doma.in"),
    "validate_url" := Bool(false),
    "delete_short_url_threshold" := Int(50),
    "locale" := Str("es"),
    "not_found_redirect_to" := Str("foobar.com"),
    "db_config" := Obj(DbConfig)
  ]

  lemma InputIsMerge()
    ensures Input == ExampleConfig + ExampleSimplified
  {
    var c := ExampleConfig;
    UnionUpdate(c, map[], "disable_track_param", Str("bar"));
    var s1 := map["disable_track_param" := Str("bar")];
    UnionUpdate(c, s1, "short_domain_schema", Str("https"));
    var s2 := s1["short_domain_schema" := Str("https")];
    UnionUpdate(c, s2, "short_domain_host", Str("doma.in"));
    var s3 := s2["short_domain_host" := Str("doma.in")];
    UnionUpdate(c, s3, "validate_url", Bool(false));
    var s4 := s3["validate_url" := Bool(false)];
    UnionUpdate(c, s4, "delete_short_url_threshold", Int(50));
    var s5 := s4["delete_short_url_threshold" := Int(50)];
    UnionUpdate(c, s5, "locale", Str("es"));
    var s6 := s5["locale" := Str("es")];
    UnionUpdate(c, s6, "not_found_redirect_to", Str("foobar.com"));
    var s7 := s6["not_found_redirect_to" := Str("foobar.com")];
    UnionUpdate(c, s7, "db_config", Obj(DbConfig));
    assert c + map[] == c;
  }

  // What each rule of the table does to any intermediate config on the example's input.

  lemma Step1(acc: Config)
    ensures ApplyRule(acc, Input, Rules[0]) ==
      acc["app_options" := Obj(Child(acc, "app_options")["disable_track_param" := Str("bar")])]
  {
    var r := Rules[0];
    assert r.key == "disable_track_param" && r.path == ["app_options", "disable_track_param"];
    assert r.key in Input && Input[r.key] == Str("bar");
    ApplyPlainRule(acc, Input, r);
    SetInTwo(acc, "app_options", "disable_track_param", Str("bar"));
  }

  lemma Step2(acc: Config)
    ensures ApplyRule(acc, Input, Rules[1]) ==
      var shortener := Child(acc, "url_shortener");
      acc["url_shortener" := Obj(shortener["domain" := Obj(Child(shortener, "domain")["schema" := Str("https")])])]
  {
    var r := Rules[1];
    assert r.key == "short_domain_schema" && r.path == ["url_shortener", "domain", "schema"];
    assert r.key in Input && Input[r.key] == Str("https");
    ApplyPlainRule(acc, Input, r);
    SetInThree(acc, "url_shortener", "domain", "schema", Str("https"));
  }

  lemma Step3(acc: Config)
    ensures ApplyRule(acc, Input, Rules[2]) ==
      var shortener := Child(acc, "url_shortener");
      acc["url_shortener" := Obj(shortener["domain" := Obj(Child(shortener, "domain")["hostname" := Str("doma.in")])])]
  {
    var r := Rules[2];
    assert r.key == "short_domain_host" && r.path == ["url_shortener", "domain", "hostname"];
    assert r.key in Input && Input[r.key] == Str("doma.in");
    ApplyPlainRule(acc, Input, r);
    SetInThree(acc, "url_shortener", "domain", "hostname", Str("doma.in"));
  }

  lemma Step4(acc: Config)
    ensures ApplyRule(acc, Input, Rules[3]) ==
      acc["url_shortener" := Obj(Child(acc, "url_shortener")["validate_url" := Bool(false)])]
  {
    var r := Rules[3];
    assert r.key == "validate_url" && r.path == ["url_shortener", "validate_url"];
    assert r.key in Input && Input[r.key] == Bool(false);
    ApplyPlainRule(acc, Input, r);
    SetInTwo(acc, "url_shortener", "validate_url", Bool(false));
  }

  lemma Step5(acc: Config)
    ensures ApplyRule(acc, Input, Rules[4]) ==
      var shortener := Child(acc, "url_shortener");
      acc["url_shortener" := Obj(shortener["not_found_short_url" := Obj(
        Child(shortener, "not_found_short_url")["redirect_to" := Str("foobar.com")]["enable_redirection" := Bool(true)])])]
  {
    var r := Rules[4];
    var e := r.sideEffect.value;
    assert r.key == "not_found_redirect_to" && r.path == ["url_shortener", "not_found_short_url", "redirect_to"];
    assert e.path == ["url_shortener", "not_found_short_url", "enable_redirection"] && e.value == Bool(true);
    assert r.key in Input && Input[r.key] == Str("foobar.com");
    ApplyFlagRule(acc, Input, r);
    SetInThreeSiblings(acc, "url_shortener", "not_found_short_url", "redirect_to", Str("foobar.com"),
      "enable_redirection", Bool(true));
  }

  lemma MergedConnection()
    ensures Merge(Connection, DbConfig) == Connection + DbConfig
  {
    MergeFlat(Connection, DbConfig);
  }

  lemma Step6(acc: Config)
    requires "entity_manager" in acc && acc["entity_manager"] == Obj(map["connection" := Obj(Connection)])
    ensures ApplyRule(acc, Input, Rules[5]) ==
      acc["entity_manager" := Obj(map["connection" := Obj(Connection + DbConfig)])]
  {
    var r := Rules[5];
    assert r.key == "db_config" && r.path == ["entity_manager", "connection"] && r.mergeable && r.sideEffect.None?;
    assert r.key in Input && Input[r.key] == Obj(DbConfig);
    assert GetIn(acc, r.path) == Some(Obj(Connection)) by {
      assert r.path[1..] == ["connection"];
      assert ["connection"][1..] == [];
    }
    ApplyMergeRule(acc, Input, r, Connection, DbConfig);
    MergedConnection();
    SetInTwo(acc, "entity_manager", "connection", Obj(Connection + DbConfig));
    Overwrite(map[], "connection", Obj(Connection), Obj(Connection + DbConfig));
  }

  lemma Step7(acc: Config)
    ensures ApplyRule(acc, Input, Rules[6]) ==
      acc["delete_short_urls" := Obj(Child(acc, "delete_short_urls")
        ["visits_threshold" := Int(50)]["check_visits_threshold" := Bool(true)])]
  {
    var r := Rules[6];
    var e := r.sideEffect.value;
    assert r.key == "delete_short_url_threshold" && r.path == ["delete_short_urls", "visits_threshold"];
    assert e.path == ["delete_short_urls", "check_visits_threshold"] && e.value == Bool(true);
    assert r.key in Input && Input[r.key] == Int(50);
    ApplyFlagRule(acc, Input, r);
    SetInTwoSiblings(acc, "delete_short_urls", "visits_threshold", Int(50), "check_visits_threshold", Bool(true));
  }

  lemma Step8(acc: Config)
    ensures ApplyRule(acc, Input, Rules[7]) ==
      acc["translator" := Obj(Child(acc, "translator")["locale" := Str("es")])]
  {
    var r := Rules[7];
    assert r.key == "locale" && r.path == ["translator", "locale"];
    assert r.key in Input && Input[r.key] == Str("es");
    ApplyPlainRule(acc, Input, r);
    SetInTwo(acc, "translator", "locale", Str("es"));
  }

  /**
   * A config whose five target keys hold the expected subtrees and whose
   * other top-level entries are those of `config + simplified` is
   * `expected + simplified`.
   */
  lemma Recombine(x: Config, expected: Config, config: Config, simplified: Config)
    requires expected.Keys == PathHeads && config.Keys <= PathHeads && simplified.Keys !! PathHeads
    requires forall h :: h in PathHeads ==> h in x && x[h] == expected[h]
    requires forall k :: k !in PathHeads ==> (k in x <==> k in config + simplified)
    requires forall k :: k !in PathHeads && k in x ==> x[k] == (config + simplified)[k]
    ensures x == expected + simplified
  {
  }

  // The five target entries as the rules fill them in.
  const AppOptionsBefore: Value := Obj(map["disable_track_param" := Str("foo")])
  const AppOptions: Value := Obj(map["disable_track_param" := Str("bar")])
  const EntityManagerBefore: Value := Obj(map["connection" := Obj(Connection)])
  const EntityManager: Value := Obj(map["connection" := Obj(Connection + DbConfig)])
  const Domain1: Config := map["schema" := Str("https")]
  const Domain: Config := map["schema" := Str("https"), "hostname" := Str("doma.in")]
  const Shortener1: Value := Obj(map["domain" := Obj(Domain1)])
  const Shortener2: Value := Obj(map["domain" := Obj(Domain)])
  const Shortener3: Value := Obj(map["domain" := Obj(Domain), "validate_url" := Bool(false)])
  const NotFound: Config := map["redirect_to" := Str("foobar.com"), "enable_redirection" := Bool(true)]
  const Shortener: Value :=
    Obj(map["domain" := Obj(Domain), "validate_url" := Bool(false), "not_found_short_url" := Obj(NotFound)])
  const DeleteShortUrls: Value := Obj(map["visits_threshold" := Int(50), "check_visits_threshold" := Bool(true)])
  const Translator: Value := Obj(map["locale" := Str("es")])

  /**
   * The top-level entry under `k`: `GetIn(c, [k])` without the path
   * recursion, which keeps the example's large literal maps cheap to reason about.
   */
  function Lookup(c: Config, k: string): Option<Value> {
    if k in c then Some(c[k]) else None
  }

  /** The entries under the five target keys, in a fixed order. */
  function Heads(c: Config): seq<Option<Value>> {
    [Lookup(c, "app_options"), Lookup(c, "url_shortener"), Lookup(c, "entity_manager"),
     Lookup(c, "delete_short_urls"), Lookup(c, "translator")]
  }

  const Final: seq<Option<Value>> :=
    [Some(AppOptions), Some(Shortener), Some(EntityManager), Some(DeleteShortUrls), Some(Translator)]

  // Writing one target entry changes that entry of `Heads` and no other.

  lemma HeadsSetAppOptions(c: Config, v: Value)
    ensures Heads(c["app_options" := v]) == Heads(c)[0 := Some(v)]
  {
  }

  lemma HeadsSetUrlShortener(c: Config, v: Value)
    ensures Heads(c["url_shortener" := v]) == Heads(c)[1 := Some(v)]
  {
  }

  lemma HeadsSetEntityManager(c: Config, v: Value)
    ensures Heads(c["entity_manager" := v]) == Heads(c)[2 := Some(v)]
  {
  }

  lemma HeadsSetDeleteShortUrls(c: Config, v: Value)
    ensures Heads(c["delete_short_urls" := v]) == Heads(c)[3 := Some(v)]
  {
  }

  lemma HeadsSetTranslator(c: Config, v: Value)
    ensures Heads(c["translator" := v]) == Heads(c)[4 := Some(v)]
  {
  }

  // The entries each rule builds, on the example's values.

  lemma Built1()
    ensures AppOptionsBefore.fields["disable_track_param" := Str("bar")] == AppOptions.fields
  {
  }

  lemma Built2()
    ensures map[]["schema" := Str("https")] == Domain1
    ensures map[]["domain" := Obj(Domain1)] == Shortener1.fields
  {
  }

  lemma Built3()
    ensures Child(Shortener1.fields, "domain") == Domain1
    ensures Domain1["hostname" := Str("doma.in")] == Domain
    ensures Shortener1.fields["domain" := Obj(Domain)] == Shortener2.fields
  {
  }

  lemma Built4()
    ensures Shortener2.fields["validate_url" := Bool(false)] == Shortener3.fields
  {
  }

  lemma Built5()
    ensures Child(Shortener3.fields, "not_found_short_url") == map[]
    ensures map[]["redirect_to" := Str("foobar.com")]["enable_redirection" := Bool(true)] == NotFound
    ensures Shortener3.fields["not_found_short_url" := Obj(NotFound)] == Shortener.fields
  {
  }

  lemma Built7()
    ensures map[]["visits_threshold" := Int(50)]["check_visits_threshold" := Bool(true)] == DeleteShortUrls.fields
  {
  }

  lemma Built8()
    ensures map[]["locale" := Str("es")] == Translator.fields
  {
  }

  // Rule by rule, the target entries the example's rules leave behind.

  lemma Heads1(acc: Config)
    requires Heads(acc) == [Some(AppOptionsBefore), None, Some(EntityManagerBefore), None, None]
    ensures Heads(ApplyRule(acc, Input, Rules[0])) == [Some(AppOptions), None, Some(EntityManagerBefore), None, None]
  {
    Step1(acc);
    Built1();
    assert Child(acc, "app_options") == AppOptionsBefore.fields;
    HeadsSetAppOptions(acc, AppOptions);
  }

  lemma Heads2(acc: Config)
    requires Heads(acc) == [Some(AppOptions), None, Some(EntityManagerBefore), None, None]
    ensures Heads(ApplyRule(acc, Input, Rules[1])) == [Some(AppOptions), Some(Shortener1), Some(EntityManagerBefore), None, None]
  {
    Step2(acc);
    Built2();
    assert Child(acc, "url_shortener") == map[];
    HeadsSetUrlShortener(acc, Shortener1);
  }

  lemma Heads3(acc: Config)
    requires Heads(acc) == [Some(AppOptions), Some(Shortener1), Some(EntityManagerBefore), None, None]
    ensures Heads(ApplyRule(acc, Input, Rules[2])) == [Some(AppOptions), Some(Shortener2), Some(EntityManagerBefore), None, None]
  {
    Step3(acc);
    Built3();
    assert Child(acc, "url_shortener") == Shortener1.fields;
    HeadsSetUrlShortener(acc, Shortener2);
  }

  lemma Heads4(acc: Config)
    requires Heads(acc) == [Some(AppOptions), Some(Shortener2), Some(EntityManagerBefore), None, None]
    ensures Heads(ApplyRule(acc, Input, Rules[3])) == [Some(AppOptions), Some(Shortener3), Some(EntityManagerBefore), None, None]
  {
    Step4(acc);
    Built4();
    assert Child(acc, "url_shortener") == Shortener2.fields;
    HeadsSetUrlShortener(acc, Shortener3);
  }

  lemma Heads5(acc: Config)
    requires Heads(acc) == [Some(AppOptions), Some(Shortener3), Some(EntityManagerBefore), None, None]
    ensures Heads(ApplyRule(acc, Input, Rules[4])) == [Some(AppOptions), Some(Shortener), Some(EntityManagerBefore), None, None]
  {
    Step5(acc);
    Built5();
    assert Child(acc, "url_shortener") == Shortener3.fields;
    HeadsSetUrlShortener(acc, Shortener);
  }

  lemma Heads6(acc: Config)
    requires Heads(acc) == [Some(AppOptions), Some(Shortener), Some(EntityManagerBefore), None, None]
    ensures Heads(ApplyRule(acc, Input, Rules[5])) == [Some(AppOptions), Some(Shortener), Some(EntityManager), None, None]
  {
    assert Lookup(acc, "entity_manager") == Some(EntityManagerBefore);
    Step6(acc);
    HeadsSetEntityManager(acc, EntityManager);
  }

  lemma Heads7(acc: Config)
    requires Heads(acc) == [Some(AppOptions), Some(Shortener), Some(EntityManager), None, None]
    ensures Heads(ApplyRule(acc, Input, Rules[6])) == [Some(AppOptions), Some(Shortener), Some(EntityManager), Some(DeleteShortUrls), None]
  {
    Step7(acc);
    Built7();
    assert Child(acc, "delete_short_urls") == map[];
    HeadsSetDeleteShortUrls(acc, DeleteShortUrls);
  }

  lemma Heads8(acc: Config)
    requires Heads(acc) == [Some(AppOptions), Some(Shortener), Some(EntityManager), Some(DeleteShortUrls), None]
    ensures Heads(ApplyRule(acc, Input, Rules[7])) == Final
  {
    Step8(acc);
    Built8();
    assert Child(acc, "translator") == map[];
    HeadsSetTranslator(acc, Translator);
  }

  // Applying the rules from the k-th on, starting from what the earlier ones leave.

  lemma From8(acc: Config)
    requires Heads(acc) == Final
    ensures Heads(ApplyAll(Rules[8..], acc, Input)) == Final
  {
    assert Rules[8..] == [];
  }

  lemma From7(acc: Config)
    requires Heads(acc) == [Some(AppOptions), Some(Shortener), Some(EntityManager), Some(DeleteShortUrls), None]
    ensures Heads(ApplyAll(Rules[7..], acc, Input)) == Final
  {
    RulesWellFormed();
    ApplyAllFrom(Rules, 7, acc, Input);
    Heads8(acc);
    From8(ApplyRule(acc, Input, Rules[7]));
  }

  lemma From6(acc: Config)
    requires Heads(acc) == [Some(AppOptions), Some(Shortener), Some(EntityManager), None, None]
    ensures Heads(ApplyAll(Rules[6..], acc, Input)) == Final
  {
    RulesWellFormed();
    ApplyAllFrom(Rules, 6, acc, Input);
    Heads7(acc);
    From7(ApplyRule(acc, Input, Rules[6]));
  }

  lemma From5(acc: Config)
    requires Heads(acc) == [Some(AppOptions), Some(Shortener), Some(EntityManagerBefore), None, None]
    ensures Heads(ApplyAll(Rules[5..], acc, Input)) == Final
  {
    RulesWellFormed();
    ApplyAllFrom(Rules, 5, acc, Input);
    Heads6(acc);
    From6(ApplyRule(acc, Input, Rules[5]));
  }

  lemma From4(acc: Config)
    requires Heads(acc) == [Some(AppOptions), Some(Shortener3), Some(EntityManagerBefore), None, None]
    ensures Heads(ApplyAll(Rules[4..], acc, Input)) == Final
  {
    RulesWellFormed();
    ApplyAllFrom(Rules, 4, acc, Input);
    Heads5(acc);
    From5(ApplyRule(acc, Input, Rules[4]));
  }

  lemma From3(acc: Config)
    requires Heads(acc) == [Some(AppOptions), Some(Shortener2), Some(EntityManagerBefore), None, None]
    ensures Heads(ApplyAll(Rules[3..], acc, Input)) == Final
  {
    RulesWellFormed();
    ApplyAllFrom(Rules, 3, acc, Input);
    Heads4(acc);
    From4(ApplyRule(acc, Input, Rules[3]));
  }

  lemma From2(acc: Config)
    requires Heads(acc) == [Some(AppOptions), Some(Shortener1), Some(EntityManagerBefore), None, None]
    ensures Heads(ApplyAll(Rules[2..], acc, Input)) == Final
  {
    RulesWellFormed();
    ApplyAllFrom(Rules, 2, acc, Input);
    Heads3(acc);
    From3(ApplyRule(acc, Input, Rules[2]));
  }

  lemma From1(acc: Config)
    requires Heads(acc) == [Some(AppOptions), None, Some(EntityManagerBefore), None, None]
    ensures Heads(ApplyAll(Rules[1..], acc, Input)) == Final
  {
    RulesWellFormed();
    ApplyAllFrom(Rules, 1, acc, Input);
    Heads2(acc);
    From2(ApplyRule(acc, Input, Rules[1]));
  }

  lemma From0(acc: Config)
    requires Heads(acc) == [Some(AppOptionsBefore), None, Some(EntityManagerBefore), None, None]
    ensures Heads(ApplyAll(Rules[0..], acc, Input)) == Final
  {
    RulesWellFormed();
    ApplyAllFrom(Rules, 0, acc, Input);
    Heads1(acc);
    From1(ApplyRule(acc, Input, Rules[0]));
  }

  /** What the rules leave under the five target keys of the example. */
  lemma ExampleHeads(input: Config)
    requires input == Input
    ensures Heads(Process(input)) == Final
  {
    assert Heads(input) == [Some(AppOptionsBefore), None, Some(EntityManagerBefore), None, None];
    assert Rules[0..] == Rules;
    From0(input);
  }

  lemma ExpectedKeys()
    ensures ExampleExpected.Keys == PathHeads
  {
  }

  lemma ExpectedConnection()
    ensures ExampleExpected["entity_manager"] == EntityManager
  {
    assert Connection + DbConfig == ExampleExpected["entity_manager"].fields["connection"].fields;
  }

  lemma ExpectedHeads()
    ensures Heads(ExampleExpected) == Final
  {
    ExpectedConnection();
  }

  /** Two configs with the same five target entries agree on every target key. */
  lemma SameHeads(x: Config, e: Config)
    requires Heads(x) == Heads(e) && e.Keys == PathHeads
    ensures forall h :: h in PathHeads ==> h in x && x[h] == e[h]
  {
    forall h | h in PathHeads
      ensures h in x && x[h] == e[h]
    {
      assert h == "app_options" || h == "url_shortener" || h == "entity_manager"
        || h == "delete_short_urls" || h == "translator";
    }
  }

  lemma ExampleKeys(config: Config, simplified: Config)
    requires config == ExampleConfig && simplified == ExampleSimplified
    ensures config.Keys <= PathHeads && simplified.Keys !! PathHeads
  {
  }

  /**
   * The example: processing the config merged with the simplified keys gives
   * the expected nested config merged with the simplified keys.
   */
  lemma ExampleProcessed(config: Config, simplified: Config)
    requires config == ExampleConfig && simplified == ExampleSimplified
    ensures Process(config + simplified) == ExampleExpected + simplified
  {
    InputIsMerge();
    var input := config + simplified;
    var x := Process(input);
    ExampleHeads(input);
    ExpectedHeads();
    ExpectedKeys();
    SameHeads(x, ExampleExpected);
    ExampleKeys(config, simplified);
    TopLevelKept(input);
    Recombine(x, ExampleExpected, config, simplified);
  }
}
