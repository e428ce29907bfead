/**
 * The configuration post-processor: a handful of "simplified" top-level keys
 * are copied into the nested paths the application reads them from. One of
 * them is merged into what is already there instead of replacing it, and two
 * of them switch on a flag next to their target. The simplified keys
 * themselves stay where they were.
 */
module ConfigPostProcessor {
  import opened Wrappers
  import opened ConfigTree

  /** A fixed value written beside a rule's target whenever the rule fires. */
  datatype SideEffect = SideEffect(path: Path, value: Value)

  /** Where simplified key `key` is written, whether it is merged, and what it switches on. */
  datatype Rule = Rule(key: string, path: Path, mergeable: bool, sideEffect: Option<SideEffect>)

  const Rules: seq<Rule> := [
    Rule("disable_track_param", ["app_options", "disable_track_param"], false, None),
    Rule("short_domain_schema", ["url_shortener", "domain", "schema"], false, None),
    Rule("short_domain_host", ["url_shortener", "domain", "hostname"], false, None),
    Rule("validate_url", ["url_shortener", "validate_url"], false, None),
    Rule("not_found_redirect_to", ["url_shortener", "not_found_short_url", "redirect_to"], false,
         Some(SideEffect(["url_shortener", "not_found_short_url", "enable_redirection"], Bool(true)))),
    Rule("db_config", ["entity_manager", "connection"], true, None),
    Rule("delete_short_url_threshold", ["delete_short_urls", "visits_threshold"], false,
         Some(SideEffect(["delete_short_urls", "check_visits_threshold"], Bool(true)))),
    Rule("locale", ["translator", "locale"], false, None)
  ]

  /** The top-level keys under which the rules write. */
  const PathHeads: set<string> :=
    {"app_options", "url_shortener", "entity_manager", "delete_short_urls", "translator"}

  /** The keys of the simplified configuration, one per rule. */
  const SimplifiedKeys: set<string> := set r | r in Rules :: r.key

  predicate WellFormed(r: Rule) {
    r.path != [] && (r.sideEffect.Some? ==> r.sideEffect.value.path != [])
  }

  /** Path `q` parts ways with every path rule `r` writes to. */
  predicate RuleAvoids(r: Rule, q: Path) {
    Diverge(r.path, q) && (r.sideEffect.Some? ==> Diverge(r.sideEffect.value.path, q))
  }

  /** The first rule's writes are apart from each other and from every write of the rules after it. */
  predicate FirstIndependent(rules: seq<Rule>)
    requires rules != []
  {
    && WellFormed(rules[0])
    && (rules[0].sideEffect.Some? ==> Diverge(rules[0].path, rules[0].sideEffect.value.path))
    && (forall j :: 1 <= j < |rules| ==> RuleAvoids(rules[j], rules[0].path))
    && (forall j :: 1 <= j < |rules| && rules[0].sideEffect.Some? ==>
          RuleAvoids(rules[j], rules[0].sideEffect.value.path))
  }

  /** No rule writes to a path that another write, of its own or of a later rule, also reaches. */
  predicate Independent(rules: seq<Rule>)
    decreases |rules|
  {
    rules != [] ==> FirstIndependent(rules) && Independent(rules[1..])
  }

  /**
   * The value a firing rule writes at its target: the simplified value, or,
   * for a mergeable rule whose target and value are both arrays, the two
   * merged with the simplified value winning.
   */
  function RuleValue(acc: Config, original: Config, r: Rule): Value
    requires r.key in original
  {
    var v := original[r.key];
    if r.mergeable then
      match GetIn(acc, r.path)
      case Some(Obj(existing)) => (if v.Obj? then Obj(Merge(existing, v.fields)) else v)
      case _ => v
    else v
  }

  /** One rule: nothing if its key is absent from the original config, else its writes. */
  function ApplyRule(acc: Config, original: Config, r: Rule): Config
    requires WellFormed(r)
  {
    if r.key !in original then acc
    else
      var written := SetIn(acc, r.path, RuleValue(acc, original, r));
      match r.sideEffect
      case None => written
      case Some(e) => SetIn(written, e.path, e.value)
  }

  /** The rule for `db_config`, the only one that merges. */
  lemma DbConfigRule()
    ensures Rules[5] == Rule("db_config", ["entity_manager", "connection"], true, None)
  {
  }

  /** A mergeable rule over an array target with an array value writes the two merged. */
  lemma MergedRuleValue(acc: Config, original: Config, r: Rule, existing: Config, supplied: Config)
    requires r.key in original && r.mergeable
    requires original[r.key] == Obj(supplied) && GetIn(acc, r.path) == Some(Obj(existing))
    ensures RuleValue(acc, original, r) == Obj(Merge(existing, supplied))
  {
  }

  /** Unless both the target and the value are arrays, a rule writes its simplified value as it is. */
  lemma UnmergedRuleValue(acc: Config, original: Config, r: Rule)
    requires r.key in original
    requires !r.mergeable || !original[r.key].Obj? || !ArrayAt(acc, r.path)
    ensures RuleValue(acc, original, r) == original[r.key]
  {
  }

  /** A firing rule that neither merges nor has a side effect writes the simplified value at its target. */
  lemma ApplyPlainRule(acc: Config, original: Config, r: Rule)
    requires WellFormed(r) && r.key in original && !r.mergeable && r.sideEffect.None?
    ensures ApplyRule(acc, original, r) == SetIn(acc, r.path, original[r.key])
  {
  }

  /** A firing rule with a side effect writes its value, then the side effect's. */
  lemma ApplyFlagRule(acc: Config, original: Config, r: Rule)
    requires WellFormed(r) && r.key in original && !r.mergeable && r.sideEffect.Some?
    ensures ApplyRule(acc, original, r) ==
      SetIn(SetIn(acc, r.path, original[r.key]), r.sideEffect.value.path, r.sideEffect.value.value)
  {
  }

  /** A firing mergeable rule over an array target merges an array value into it. */
  lemma ApplyMergeRule(acc: Config, original: Config, r: Rule, existing: Config, supplied: Config)
    requires WellFormed(r) && r.key in original && r.mergeable && r.sideEffect.None?
    requires original[r.key] == Obj(supplied) && GetIn(acc, r.path) == Some(Obj(existing))
    ensures ApplyRule(acc, original, r) == SetIn(acc, r.path, Obj(Merge(existing, supplied)))
  {
  }

  /** The rules applied in order, each reading its simplified value from the original config. */
  function ApplyAll(rules: seq<Rule>, acc: Config, original: Config): Config
    requires forall i :: 0 <= i < |rules| ==> WellFormed(rules[i])
    decreases |rules|
  {
    if rules == [] then acc
    else ApplyAll(rules[1..], ApplyRule(acc, original, rules[0]), original)
  }

  /**
   * The post-processor. Every top-level key outside the rules' targets,
   * the simplified keys among them, is left exactly as it was.
   */
  function Process(config: Config): (r: Config)
    ensures forall k :: k !in PathHeads ==> GetIn(r, [k]) == GetIn(config, [k])
  {
    RulesWellFormed();
    ProcessKeepsTopLevel(config);
    ApplyAll(Rules, config, config)
  }

  /** No two writes of the rule table reach the same entry, so the order of the rules does not matter. */
  lemma RulesIndependent()
    ensures Independent(Rules)
    ensures forall i :: 0 <= i < |Rules| ==> WellFormed(Rules[i])
  {
    RulesWellFormed();
    RulesIndependentFrom0();
    assert Rules[0..] == Rules;
  }

  /** Every rule of the table writes to non-empty paths. */
  lemma RulesWellFormed()
    ensures forall i :: 0 <= i < |Rules| ==> WellFormed(Rules[i])
  {
  }

  // The same fact for the suffixes of the table, one rule at a time, so that each proof stays small.

  lemma RulesFirstIndependent7()
    ensures FirstIndependent(Rules[7..])
  {
    assert |Rules[7..]| == 1;
  }

  lemma RulesFirstIndependent6()
    ensures FirstIndependent(Rules[6..])
  {
    var s := Rules[6..];
    assert s[0] == Rules[6];
    forall j | 1 <= j < |s|
      ensures RuleAvoids(s[j], s[0].path)
      ensures RuleAvoids(s[j], s[0].sideEffect.value.path)
    {
      assert s[j] == Rules[6 + j];
    }
  }

  lemma RulesFirstIndependent5()
    ensures FirstIndependent(Rules[5..])
  {
    var s := Rules[5..];
    assert s[0] == Rules[5];
    forall j | 1 <= j < |s|
      ensures RuleAvoids(s[j], s[0].path)
    {
      assert s[j] == Rules[5 + j];
    }
  }

  lemma RulesFirstIndependent4()
    ensures FirstIndependent(Rules[4..])
  {
    var s := Rules[4..];
    assert s[0] == Rules[4];
    forall j | 1 <= j < |s|
      ensures RuleAvoids(s[j], s[0].path)
      ensures RuleAvoids(s[j], s[0].sideEffect.value.path)
    {
      assert s[j] == Rules[4 + j];
    }
  }

  lemma RulesFirstIndependent3()
    ensures FirstIndependent(Rules[3..])
  {
    var s := Rules[3..];
    assert s[0] == Rules[3];
    forall j | 1 <= j < |s|
      ensures RuleAvoids(s[j], s[0].path)
    {
      assert s[j] == Rules[3 + j];
    }
  }

  lemma RulesFirstIndependent2()
    ensures FirstIndependent(Rules[2..])
  {
    var s := Rules[2..];
    assert s[0] == Rules[2];
    forall j | 1 <= j < |s|
      ensures RuleAvoids(s[j], s[0].path)
    {
      assert s[j] == Rules[2 + j];
    }
  }

  lemma RulesFirstIndependent1()
    ensures FirstIndependent(Rules[1..])
  {
    var s := Rules[1..];
    assert s[0] == Rules[1];
    forall j | 1 <= j < |s|
      ensures RuleAvoids(s[j], s[0].path)
    {
      assert s[j] == Rules[1 + j];
    }
  }

  lemma RulesFirstIndependent0()
    ensures FirstIndependent(Rules[0..])
  {
    var s := Rules[0..];
    assert s[0] == Rules[0];
    forall j | 1 <= j < |s|
      ensures RuleAvoids(s[j], s[0].path)
    {
      assert s[j] == Rules[0 + j];
    }
  }

  lemma RulesIndependentFrom7()
    ensures Independent(Rules[7..])
  {
    RulesFirstIndependent7();
    assert Independent(Rules[8..]);
    assert Rules[7..][1..] == Rules[8..];
  }

  lemma RulesIndependentFrom6()
    ensures Independent(Rules[6..])
  {
    RulesFirstIndependent6();
    RulesIndependentFrom7();
    assert Rules[6..][1..] == Rules[7..];
  }

  lemma RulesIndependentFrom5()
    ensures Independent(Rules[5..])
  {
    RulesFirstIndependent5();
    RulesIndependentFrom6();
    assert Rules[5..][1..] == Rules[6..];
  }

  lemma RulesIndependentFrom4()
    ensures Independent(Rules[4..])
  {
    RulesFirstIndependent4();
    RulesIndependentFrom5();
    assert Rules[4..][1..] == Rules[5..];
  }

  lemma RulesIndependentFrom3()
    ensures Independent(Rules[3..])
  {
    RulesFirstIndependent3();
    RulesIndependentFrom4();
    assert Rules[3..][1..] == Rules[4..];
  }

  lemma RulesIndependentFrom2()
    ensures Independent(Rules[2..])
  {
    RulesFirstIndependent2();
    RulesIndependentFrom3();
    assert Rules[2..][1..] == Rules[3..];
  }

  lemma RulesIndependentFrom1()
    ensures Independent(Rules[1..])
  {
    RulesFirstIndependent1();
    RulesIndependentFrom2();
    assert Rules[1..][1..] == Rules[2..];
  }

  lemma RulesIndependentFrom0()
    ensures Independent(Rules[0..])
  {
    RulesFirstIndependent0();
    RulesIndependentFrom1();
    assert Rules[0..][1..] == Rules[1..];
  }

  /** A rule leaves every path that diverges from all its writes as it was. */
  lemma ApplyRuleFrame(acc: Config, original: Config, r: Rule, q: Path)
    requires WellFormed(r) && RuleAvoids(r, q)
    ensures GetIn(ApplyRule(acc, original, r), q) == GetIn(acc, q)
  {
    if r.key in original {
      var written := SetIn(acc, r.path, RuleValue(acc, original, r));
      GetInSetInOther(acc, r.path, RuleValue(acc, original, r), q);
      if r.sideEffect.Some? {
        GetInSetInOther(written, r.sideEffect.value.path, r.sideEffect.value.value, q);
      }
    }
  }

  /** All rules together leave every path that diverges from all their writes as it was. */
  lemma {:induction false} ApplyAllFrame(rules: seq<Rule>, acc: Config, original: Config, q: Path)
    requires forall i :: 0 <= i < |rules| ==> WellFormed(rules[i])
    requires forall i :: 0 <= i < |rules| ==> RuleAvoids(rules[i], q)
    ensures GetIn(ApplyAll(rules, acc, original), q) == GetIn(acc, q)
    decreases |rules|
  {
    if rules != [] {
      ApplyRuleFrame(acc, original, rules[0], q);
      ApplyAllFrame(rules[1..], ApplyRule(acc, original, rules[0]), original, q);
    }
  }

  lemma ProcessKeepsTopLevel(config: Config)
    ensures forall k :: k !in PathHeads ==> GetIn(ApplyAll(Rules, config, config), [k]) == GetIn(config, [k])
  {
    RulesWellFormed();
    forall k | k !in PathHeads
      ensures GetIn(ApplyAll(Rules, config, config), [k]) == GetIn(config, [k])
    {
      forall i | 0 <= i < |Rules|
        ensures RuleAvoids(Rules[i], [k])
      {
        assert Rules[i].path[0] in PathHeads;
      }
      ApplyAllFrame(Rules, config, config, [k]);
    }
  }

  /** Applying the rules from `k` on is applying rule `k`, then the rest. */
  lemma ApplyAllFrom(rules: seq<Rule>, k: nat, acc: Config, original: Config)
    requires k < |rules|
    requires forall i :: 0 <= i < |rules| ==> WellFormed(rules[i])
    ensures ApplyAll(rules[k..], acc, original) == ApplyAll(rules[k + 1..], ApplyRule(acc, original, rules[k]), original)
  {
    assert rules[k..][0] == rules[k];
    assert rules[k..][1..] == rules[k + 1..];
  }

  /** Independence read backwards: a later rule's writes also avoid an earlier rule's. */
  lemma AvoidsBack(a: Rule, b: Rule)
    requires RuleAvoids(b, a.path)
    requires a.sideEffect.Some? ==> RuleAvoids(b, a.sideEffect.value.path)
    ensures RuleAvoids(a, b.path)
    ensures b.sideEffect.Some? ==> RuleAvoids(a, b.sideEffect.value.path)
  {
    DivergeSymmetric(b.path, a.path);
    if a.sideEffect.Some? {
      DivergeSymmetric(b.path, a.sideEffect.value.path);
    }
    if b.sideEffect.Some? {
      DivergeSymmetric(b.sideEffect.value.path, a.path);
      if a.sideEffect.Some? {
        DivergeSymmetric(b.sideEffect.value.path, a.sideEffect.value.path);
      }
    }
  }

  /**
   * In a list of independent rules, rule `i` alone decides its target and its
   * side effect's path: what it writes there if its key is present, and what
   * was there before otherwise.
   */
  lemma {:induction false} ApplyAllAt(rules: seq<Rule>, acc: Config, original: Config, i: nat)
    requires Independent(rules) && i < |rules|
    requires forall k :: 0 <= k < |rules| ==> WellFormed(rules[k])
    ensures GetIn(ApplyAll(rules, acc, original), rules[i].path) ==
      if rules[i].key in original then Some(RuleValue(acc, original, rules[i]))
      else GetIn(acc, rules[i].path)
    ensures rules[i].sideEffect.Some? ==>
      GetIn(ApplyAll(rules, acc, original), rules[i].sideEffect.value.path) ==
        if rules[i].key in original then Some(rules[i].sideEffect.value.value)
        else GetIn(acc, rules[i].sideEffect.value.path)
    decreases |rules|
  {
    var r := rules[0];
    var next := ApplyRule(acc, original, r);
    assert forall j :: 0 <= j < |rules[1..]| ==> rules[1..][j] == rules[j + 1];
    if i == 0 {
      if r.key in original {
        var written := SetIn(acc, r.path, RuleValue(acc, original, r));
        GetInSetInSame(acc, r.path, RuleValue(acc, original, r));
        if r.sideEffect.Some? {
          var e := r.sideEffect.value;
          DivergeSymmetric(r.path, e.path);
          GetInSetInOther(written, e.path, e.value, r.path);
          GetInSetInSame(written, e.path, e.value);
        }
      }
      ApplyAllFrame(rules[1..], next, original, r.path);
      if r.sideEffect.Some? {
        ApplyAllFrame(rules[1..], next, original, r.sideEffect.value.path);
      }
    } else {
      var q := rules[i];
      ApplyAllAt(rules[1..], next, original, i - 1);
      AvoidsBack(r, q);
      ApplyRuleFrame(acc, original, r, q.path);
      if q.sideEffect.Some? {
        ApplyRuleFrame(acc, original, r, q.sideEffect.value.path);
      }
    }
  }

  /**
   * What the post-processor leaves at rule `i`'s target and side-effect path:
   * the rule's value and flag when its simplified key is present, and the
   * original entry when it is absent.
   */
  lemma ProcessAt(config: Config, i: nat)
    requires i < |Rules|
    ensures GetIn(Process(config), Rules[i].path) ==
      if Rules[i].key in config then Some(RuleValue(config, config, Rules[i]))
      else GetIn(config, Rules[i].path)
    ensures Rules[i].sideEffect.Some? ==>
      GetIn(Process(config), Rules[i].sideEffect.value.path) ==
        if Rules[i].key in config then Some(Rules[i].sideEffect.value.value)
        else GetIn(config, Rules[i].sideEffect.value.path)
  {
    RulesIndependent();
    ApplyAllAt(Rules, config, config, i);
  }

  /** Top-level keys other than the rules' targets keep their presence and their values. */
  lemma TopLevelKept(config: Config)
    ensures forall k :: k !in PathHeads ==> (k in Process(config) <==> k in config)
    ensures forall k :: k !in PathHeads && k in config ==> Process(config)[k] == config[k]
  {
    var r := Process(config);
    forall k | k !in PathHeads
      ensures (k in r <==> k in config) && (k in config ==> r[k] == config[k])
    {
      GetInTopLevel(r, k);
      GetInTopLevel(config, k);
    }
  }

  /** Any entry, however deep, that no rule writes keeps its value. */
  lemma ProcessFrame(config: Config, q: Path)
    requires forall i :: 0 <= i < |Rules| ==> RuleAvoids(Rules[i], q)
    ensures GetIn(Process(config), q) == GetIn(config, q)
  {
    RulesWellFormed();
    ApplyAllFrame(Rules, config, config, q);
  }

  /** The simplified keys stay at the top level with their original values. */
  lemma SimplifiedKeysKept(config: Config)
    ensures forall k :: k in SimplifiedKeys ==> (k in Process(config) <==> k in config)
    ensures forall k :: k in SimplifiedKeys && k in config ==> Process(config)[k] == config[k]
  {
    assert SimplifiedKeys !! PathHeads;
    TopLevelKept(config);
  }

  /** `disable_track_param` replaces `app_options.disable_track_param`. */
  lemma DisableTrackParamOverrides(config: Config)
    requires "disable_track_param" in config
    ensures GetIn(Process(config), ["app_options", "disable_track_param"]) == Some(config["disable_track_param"])
  {
    ProcessAt(config, 0);
  }

  /** `short_domain_schema` and `short_domain_host` land under `url_shortener.domain`. */
  lemma ShortDomainMapped(config: Config)
    requires "short_domain_schema" in config && "short_domain_host" in config
    ensures GetIn(Process(config), ["url_shortener", "domain", "schema"]) == Some(config["short_domain_schema"])
    ensures GetIn(Process(config), ["url_shortener", "domain", "hostname"]) == Some(config["short_domain_host"])
  {
    ProcessAt(config, 1);
    ProcessAt(config, 2);
  }

  /** `validate_url` lands at `url_shortener.validate_url`. */
  lemma ValidateUrlMapped(config: Config)
    requires "validate_url" in config
    ensures GetIn(Process(config), ["url_shortener", "validate_url"]) == Some(config["validate_url"])
  {
    ProcessAt(config, 3);
  }

  /** `not_found_redirect_to` sets the redirect target and switches the redirection on. */
  lemma NotFoundRedirectMapped(config: Config)
    requires "not_found_redirect_to" in config
    ensures GetIn(Process(config), ["url_shortener", "not_found_short_url", "redirect_to"]) ==
      Some(config["not_found_redirect_to"])
    ensures GetIn(Process(config), ["url_shortener", "not_found_short_url", "enable_redirection"]) ==
      Some(Bool(true))
  {
    ProcessAt(config, 4);
  }

  /**
   * `db_config` is merged into `entity_manager.connection`: the keys it
   * supplies win, the others already there are kept.
   */
  lemma DbConfigMerged(config: Config, existing: Config, supplied: Config)
    requires "db_config" in config && config["db_config"] == Obj(supplied)
    requires GetIn(config, ["entity_manager", "connection"]) == Some(Obj(existing))
    ensures GetIn(Process(config), ["entity_manager", "connection"]) == Some(Obj(Merge(existing, supplied)))
  {
    ProcessAt(config, 5);
    DbConfigRule();
    MergedRuleValue(config, config, Rules[5], existing, supplied);
  }

  /**
   * Without an array at `entity_manager.connection` to merge into, or when
   * `db_config` is not an array, `db_config` is written as it is.
   */
  lemma DbConfigReplaces(config: Config)
    requires "db_config" in config
    requires !config["db_config"].Obj? || !ArrayAt(config, ["entity_manager", "connection"])
    ensures GetIn(Process(config), ["entity_manager", "connection"]) == Some(config["db_config"])
  {
    ProcessAt(config, 5);
    DbConfigRule();
    UnmergedRuleValue(config, config, Rules[5]);
  }

  /** `delete_short_url_threshold` sets the visits threshold and switches its check on. */
  lemma DeleteThresholdMapped(config: Config)
    requires "delete_short_url_threshold" in config
    ensures GetIn(Process(config), ["delete_short_urls", "visits_threshold"]) ==
      Some(config["delete_short_url_threshold"])
    ensures GetIn(Process(config), ["delete_short_urls", "check_visits_threshold"]) == Some(Bool(true))
  {
    ProcessAt(config, 6);
  }

  /** `locale` lands at `translator.locale`. */
  lemma LocaleMapped(config: Config)
    requires "locale" in config
    ensures GetIn(Process(config), ["translator", "locale"]) == Some(config["locale"])
  {
    ProcessAt(config, 7);
  }

  /** A simplified key that is absent leaves its target and side-effect path untouched. */
  lemma AbsentKeyChangesNothing(config: Config, i: nat)
    requires i < |Rules| && Rules[i].key !in config
    ensures GetIn(Process(config), Rules[i].path) == GetIn(config, Rules[i].path)
    ensures Rules[i].sideEffect.Some? ==>
      GetIn(Process(config), Rules[i].sideEffect.value.path) == GetIn(config, Rules[i].sideEffect.value.path)
  {
    ProcessAt(config, i);
  }
}
