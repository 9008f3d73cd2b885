/**
 * The Spring Native customizer for Maven builds: it adds the Spring AOT
 * plugin, configures the Spring Boot plugin to build a native image with the
 * tiny Paketo builder and, when JPA is used, adds the Hibernate bytecode
 * enhancement plugin.
 */
module SpringNativeMavenBuild {
  import opened Wrappers
  import opened Keyed
  import opened BuildModel

  const AotPlugin := Coordinates("org.springframework.experimental", "spring-aot-maven-plugin")
  const BootPlugin := Coordinates("org.springframework.boot", "spring-boot-maven-plugin")
  const HibernateEnhancePlugin := Coordinates("org.hibernate.orm.tooling", "hibernate-enhance-maven-plugin")

  /** The `image` block added to the Spring Boot plugin's configuration. */
  const ImageConfiguration: Settings := [
    Entry("image", Block([
      Entry("builder", Text("paketobuildpacks/builder:tiny")),
      Entry("env", Block([Entry("BP_BOOT_NATIVE_IMAGE", Text("true"))]))]))]

  /** The configuration of the `enhance` execution, in declaration order. */
  const EnhanceConfiguration: Settings := [
    Entry("failOnError", Text("true")),
    Entry("enableLazyInitialization", Text("true")),
    Entry("enableDirtyTracking", Text("true")),
    Entry("enableAssociationManagement", Text("true")),
    Entry("enableExtendedEnhancement", Text("false"))]

  type Plugins = seq<Entry<Coordinates, MavenPlugin>>

  /** Execution `id` is present and its goals end with `goal`. */
  predicate Runs(p: MavenPlugin, id: string, goal: string) {
    var e := Find(p.executions, id);
    e.Some? && EndsWith(e.value.goals, [goal])
  }

  /** The AOT plugin as `customize` leaves it: at the Spring Native version, running both AOT goals. */
  predicate AotConfigured(p: MavenPlugin) {
    && p.version == Some("${spring-native.version}")
    && Runs(p, "test-generate", "test-generate")
    && Runs(p, "generate", "generate")
  }

  /** The Spring Boot plugin as `customize` leaves it: its configuration ends with the `image` block. */
  predicate BootConfigured(p: MavenPlugin) {
    EndsWith(p.configuration, ImageConfiguration)
  }

  /**
   * The Hibernate enhancement plugin as `configureHibernateEnhancePlugin`
   * leaves it: at the Hibernate version, its `enhance` execution running the
   * `enhance` goal with the five enhancement settings last.
   */
  predicate HibernateEnhanceConfigured(p: MavenPlugin) {
    && p.version == Some("${hibernate.version}")
    && Runs(p, "enhance", "enhance")
    && EndsWith(Find(p.executions, "enhance").value.configuration, EnhanceConfiguration)
  }

  /** The plugin at `c`, or an empty one (get-or-create). */
  function PluginAt(plugins: Plugins, c: Coordinates): MavenPlugin {
    FindOr(plugins, c, EmptyMavenPlugin)
  }

  /**
   * What the AOT plugin's customizer does to the (fetched or new) plugin:
   * `test-generate` and `generate` each get the goal of their name appended;
   * everything else is kept.
   */
  function CustomizeAot(p: MavenPlugin): (r: MavenPlugin)
    ensures AotConfigured(r)
    ensures r.configuration == p.configuration
    ensures Find(r.executions, "test-generate")
            == Some(ExecutionAt(p, "test-generate").(goals := ExecutionAt(p, "test-generate").goals + ["test-generate"]))
    ensures Find(r.executions, "generate")
            == Some(ExecutionAt(p, "generate").(goals := ExecutionAt(p, "generate").goals + ["generate"]))
    ensures forall id :: id != "test-generate" && id != "generate" ==> Find(r.executions, id) == Find(p.executions, id)
  {
    var versioned := p.(version := Some("${spring-native.version}"));
    var testGenerate := WithExecution(versioned, "test-generate", "test-generate", []);
    var r := WithExecution(testGenerate, "generate", "generate", []);
    assert ExecutionAt(p, "test-generate").configuration + [] == ExecutionAt(p, "test-generate").configuration;
    assert ExecutionAt(testGenerate, "generate") == ExecutionAt(p, "generate") by {
      WithExecutionKeepsOthers(versioned, "test-generate", "test-generate", [], "generate");
    }
    assert ExecutionAt(p, "generate").configuration + [] == ExecutionAt(p, "generate").configuration;
    WithExecutionKeepsOthers(testGenerate, "generate", "generate", [], "test-generate");
    EndsWithAppend(ExecutionAt(p, "test-generate").goals, ["test-generate"]);
    EndsWithAppend(ExecutionAt(p, "generate").goals, ["generate"]);
    assert forall id :: id != "test-generate" && id != "generate" ==> Find(r.executions, id) == Find(p.executions, id) by {
      forall id | id != "test-generate" && id != "generate"
        ensures Find(r.executions, id) == Find(p.executions, id)
      {
        WithExecutionKeepsOthers(versioned, "test-generate", "test-generate", [], id);
        WithExecutionKeepsOthers(testGenerate, "generate", "generate", [], id);
      }
    }
    r
  }

  /** What the Spring Boot plugin's customizer does: it appends the `image` block to the configuration. */
  function CustomizeBoot(p: MavenPlugin): (r: MavenPlugin)
    ensures r.version == p.version && r.executions == p.executions
    ensures r.configuration == p.configuration + ImageConfiguration
    ensures BootConfigured(r)
  {
    EndsWithAppend(p.configuration, ImageConfiguration);
    p.(configuration := p.configuration + ImageConfiguration)
  }

  /**
   * What the Hibernate enhancement plugin's customizer does: the version is
   * set, and the `enhance` execution gets its goal and the five settings
   * appended; everything else is kept.
   */
  function CustomizeHibernateEnhance(p: MavenPlugin): (r: MavenPlugin)
    ensures HibernateEnhanceConfigured(r)
    ensures r.configuration == p.configuration
    ensures Find(r.executions, "enhance")
            == Some(Execution(ExecutionAt(p, "enhance").goals + ["enhance"],
                              ExecutionAt(p, "enhance").configuration + EnhanceConfiguration))
    ensures forall id :: id != "enhance" ==> Find(r.executions, id) == Find(p.executions, id)
  {
    var versioned := p.(version := Some("${hibernate.version}"));
    EndsWithAppend(ExecutionAt(p, "enhance").goals, ["enhance"]);
    EndsWithAppend(ExecutionAt(p, "enhance").configuration, EnhanceConfiguration);
    var r := WithExecution(versioned, "enhance", "enhance", EnhanceConfiguration);
    assert forall id :: id != "enhance" ==> Find(r.executions, id) == Find(p.executions, id) by {
      forall id | id != "enhance" ensures Find(r.executions, id) == Find(p.executions, id) {
        WithExecutionKeepsOthers(versioned, "enhance", "enhance", EnhanceConfiguration, id);
      }
    }
    r
  }

  /** The plugins after `configureHibernateEnhancePlugin`. */
  function ApplyHibernateEnhance(plugins: Plugins): (r: Plugins)
    requires UniqueKeys(plugins)
    ensures Find(r, HibernateEnhancePlugin) == Some(CustomizeHibernateEnhance(PluginAt(plugins, HibernateEnhancePlugin)))
    ensures forall c :: c != HibernateEnhancePlugin ==> Find(r, c) == Find(plugins, c)
    ensures UniqueKeys(r)
  {
    var p := CustomizeHibernateEnhance(PluginAt(plugins, HibernateEnhancePlugin));
    UpsertKeepsUnique(plugins, HibernateEnhancePlugin, p);
    Upsert(plugins, HibernateEnhancePlugin, p)
  }

  /** The plugins after the AOT plugin step of `customize`. */
  function AddAotPlugin(plugins: Plugins): (r: Plugins)
    requires UniqueKeys(plugins)
    ensures Find(r, AotPlugin) == Some(CustomizeAot(PluginAt(plugins, AotPlugin)))
    ensures forall c :: c != AotPlugin ==> Find(r, c) == Find(plugins, c)
    ensures UniqueKeys(r)
  {
    var p := CustomizeAot(PluginAt(plugins, AotPlugin));
    UpsertKeepsUnique(plugins, AotPlugin, p);
    Upsert(plugins, AotPlugin, p)
  }

  /** The plugins after the Spring Boot plugin step of `customize`. */
  function AddBootPlugin(plugins: Plugins): (r: Plugins)
    requires UniqueKeys(plugins)
    ensures Find(r, BootPlugin) == Some(CustomizeBoot(PluginAt(plugins, BootPlugin)))
    ensures forall c :: c != BootPlugin ==> Find(r, c) == Find(plugins, c)
    ensures UniqueKeys(r)
  {
    var p := CustomizeBoot(PluginAt(plugins, BootPlugin));
    UpsertKeepsUnique(plugins, BootPlugin, p);
    Upsert(plugins, BootPlugin, p)
  }

  /** The plugins after `customize`, given whether the build uses JPA. */
  function CustomizePlugins(plugins: Plugins, jpa: bool): (r: Plugins)
    requires UniqueKeys(plugins)
    ensures UniqueKeys(r)
  {
    var withBoot := AddBootPlugin(AddAotPlugin(plugins));
    if jpa then ApplyHibernateEnhance(withBoot) else withBoot
  }

  /** The build after `customize`: only its Maven plugins change, and ids stay distinct. */
  function Apply(s: BuildState): (r: BuildState)
    requires s.Valid()
    ensures r.Valid()
    ensures r == s.(mavenPlugins := r.mavenPlugins)
  {
    s.(mavenPlugins := CustomizePlugins(s.mavenPlugins, Has(s.dependencies, DataJpaId)))
  }

  /**
   * `customize` leaves the AOT plugin at the Spring Native version running
   * both AOT goals, and the Spring Boot plugin's configuration ending with
   * the native `image` block.
   */
  lemma ApplyConfiguresAotAndBoot(plugins: Plugins, jpa: bool)
    requires UniqueKeys(plugins)
    ensures var r := CustomizePlugins(plugins, jpa);
            && Find(r, AotPlugin).Some? && AotConfigured(PluginAt(r, AotPlugin))
            && Find(r, BootPlugin).Some? && BootConfigured(PluginAt(r, BootPlugin))
  {
    DistinctPlugins();
    var withAot := AddAotPlugin(plugins);
    var withBoot := AddBootPlugin(withAot);
    assert Find(withBoot, AotPlugin) == Find(withAot, AotPlugin);
    if jpa {
      var r := ApplyHibernateEnhance(withBoot);
      assert Find(r, AotPlugin) == Find(withBoot, AotPlugin);
      assert Find(r, BootPlugin) == Find(withBoot, BootPlugin);
    }
  }

  /**
   * `customize` has the Hibernate enhancement plugin exactly when JPA is used
   * (or it was there already): configured with JPA, untouched without.
   */
  lemma ApplyHibernateEnhanceIffJpa(plugins: Plugins, jpa: bool)
    requires UniqueKeys(plugins)
    ensures var r := CustomizePlugins(plugins, jpa);
            && (Has(r, HibernateEnhancePlugin) <==> jpa || Has(plugins, HibernateEnhancePlugin))
            && (!jpa ==> Find(r, HibernateEnhancePlugin) == Find(plugins, HibernateEnhancePlugin))
            && (jpa ==> HibernateEnhanceConfigured(PluginAt(r, HibernateEnhancePlugin)))
  {
    DistinctPlugins();
    var withBoot := AddBootPlugin(AddAotPlugin(plugins));
    assert Find(withBoot, HibernateEnhancePlugin) == Find(plugins, HibernateEnhancePlugin);
  }

  /** `customize` changes no plugin but these three. */
  lemma ApplyKeepsOtherPlugins(plugins: Plugins, jpa: bool, c: Coordinates)
    requires UniqueKeys(plugins) && c != AotPlugin && c != BootPlugin && c != HibernateEnhancePlugin
    ensures Find(CustomizePlugins(plugins, jpa), c) == Find(plugins, c)
  {
    var withBoot := AddBootPlugin(AddAotPlugin(plugins));
    assert Find(withBoot, c) == Find(plugins, c);
  }

  /** `customize` removes no plugin. */
  lemma ApplyRemovesNoPlugin(plugins: Plugins, jpa: bool, c: Coordinates)
    requires UniqueKeys(plugins) && Has(plugins, c)
    ensures Has(CustomizePlugins(plugins, jpa), c)
  {
    if c == AotPlugin || c == BootPlugin {
      ApplyConfiguresAotAndBoot(plugins, jpa);
    } else if c == HibernateEnhancePlugin {
      ApplyHibernateEnhanceIffJpa(plugins, jpa);
    } else {
      ApplyKeepsOtherPlugins(plugins, jpa, c);
      assert Find(plugins, c).Some?;
    }
  }

  /** The three plugins' coordinates differ (their artifact ids differ in length). */
  lemma DistinctPlugins()
    ensures AotPlugin != BootPlugin && AotPlugin != HibernateEnhancePlugin && BootPlugin != HibernateEnhancePlugin
  {
    assert |AotPlugin.artifactId| == 23;
    assert |BootPlugin.artifactId| == 24;
    assert |HibernateEnhancePlugin.artifactId| == 30;
  }

  /** The AOT plugin as `customize` creates it. */
  const NewAotPlugin := MavenPlugin(Some("${spring-native.version}"),
                                    [Entry("test-generate", Execution(["test-generate"], [])),
                                     Entry("generate", Execution(["generate"], []))], [])

  /** The Spring Boot plugin as `customize` creates it: no version, no execution, the `image` block. */
  const NewBootPlugin := MavenPlugin(None, [], ImageConfiguration)

  /** The Hibernate enhancement plugin as `configureHibernateEnhancePlugin` creates it. */
  const NewHibernateEnhancePlugin := MavenPlugin(Some("${hibernate.version}"),
                                                 [Entry("enhance", Execution(["enhance"], EnhanceConfiguration))], [])

  /** The plugins `customize` gives a build that had none, without JPA. */
  const AotAndBootPlugins := [Entry(AotPlugin, NewAotPlugin), Entry(BootPlugin, NewBootPlugin)]

  lemma CustomizeNewAot()
    ensures CustomizeAot(EmptyMavenPlugin) == NewAotPlugin
  {
    var versioned := EmptyMavenPlugin.(version := Some("${spring-native.version}"));
    var testGenerate := WithExecution(versioned, "test-generate", "test-generate", []);
    assert FindOr<string, Execution>([], "test-generate", EmptyExecution) == EmptyExecution;
    assert [] + ["test-generate"] == ["test-generate"];
    UpsertNew<string, Execution>([], "test-generate", Execution(["test-generate"], []));
    assert testGenerate.executions == [Entry("test-generate", Execution(["test-generate"], []))];
    assert "generate" !in Keys(testGenerate.executions);
    assert FindOr(testGenerate.executions, "generate", EmptyExecution) == EmptyExecution;
    assert [] + ["generate"] == ["generate"];
    UpsertNew(testGenerate.executions, "generate", Execution(["generate"], []));
  }

  lemma CustomizeNewHibernateEnhance()
    ensures CustomizeHibernateEnhance(EmptyMavenPlugin) == NewHibernateEnhancePlugin
  {
    assert FindOr<string, Execution>([], "enhance", EmptyExecution) == EmptyExecution;
    assert [] + ["enhance"] == ["enhance"];
    assert [] + EnhanceConfiguration == EnhanceConfiguration;
    UpsertNew<string, Execution>([], "enhance", Execution(["enhance"], EnhanceConfiguration));
  }

  /**
   * On a build with no Maven plugin yet, the plugins are exactly the AOT
   * plugin with its two executions in order, the Spring Boot plugin holding
   * only the `image` block and, with JPA, the Hibernate enhancement plugin
   * with its one `enhance` execution and its five settings.
   */
  lemma ApplyToNoPlugins(jpa: bool)
    ensures CustomizePlugins([], jpa) ==
      AotAndBootPlugins + if jpa then [Entry(HibernateEnhancePlugin, NewHibernateEnhancePlugin)] else []
  {
    AddAotPluginToNone();
    AddBootPluginAfterAot();
    if jpa {
      AddHibernateEnhanceAfterBoot();
    }
  }

  lemma AddAotPluginToNone()
    ensures AddAotPlugin([]) == [Entry(AotPlugin, NewAotPlugin)]
  {
    CustomizeNewAot();
    assert PluginAt([], AotPlugin) == EmptyMavenPlugin;
    UpsertNew<Coordinates, MavenPlugin>([], AotPlugin, NewAotPlugin);
  }

  lemma AddBootPluginAfterAot()
    ensures AddBootPlugin([Entry(AotPlugin, NewAotPlugin)]) == AotAndBootPlugins
  {
    var plugins := [Entry(AotPlugin, NewAotPlugin)];
    DistinctPlugins();
    assert Keys(plugins) == [AotPlugin];
    assert PluginAt(plugins, BootPlugin) == EmptyMavenPlugin;
    assert [] + ImageConfiguration == ImageConfiguration;
    UpsertNew(plugins, BootPlugin, NewBootPlugin);
  }

  lemma AddHibernateEnhanceAfterBoot()
    ensures UniqueKeys(AotAndBootPlugins)
    ensures ApplyHibernateEnhance(AotAndBootPlugins)
            == AotAndBootPlugins + [Entry(HibernateEnhancePlugin, NewHibernateEnhancePlugin)]
  {
    AotAndBootKeys();
    CustomizeNewHibernateEnhance();
    assert PluginAt(AotAndBootPlugins, HibernateEnhancePlugin) == EmptyMavenPlugin;
    UpsertNew(AotAndBootPlugins, HibernateEnhancePlugin, NewHibernateEnhancePlugin);
  }

  lemma AotAndBootKeys()
    ensures Keys(AotAndBootPlugins) == [AotPlugin, BootPlugin]
    ensures UniqueKeys(AotAndBootPlugins)
    ensures HibernateEnhancePlugin !in Keys(AotAndBootPlugins)
  {
    DistinctPlugins();
    KeysOfPair(Entry(AotPlugin, NewAotPlugin), Entry(BootPlugin, NewBootPlugin));
    assert AotAndBootPlugins[1..] == [Entry(BootPlugin, NewBootPlugin)];
    assert Keys(AotAndBootPlugins[1..]) == [BootPlugin];
  }

  class SpringNativeMavenBuildCustomizer {

    method Customize(build: Build)
      requires build.Valid() && build.system == Maven
      modifies build
      ensures build.Valid()
      ensures build.State() == Apply(old(build.State()))
    {
      // AOT plugin
      var aot := PluginAt(build.mavenPlugins, AotPlugin);
      build.PutMavenPlugin(AotPlugin, CustomizeAot(aot));
      assert build.mavenPlugins == AddAotPlugin(old(build.mavenPlugins));
      // Spring Boot plugin
      ghost var withAot := build.mavenPlugins;
      var boot := PluginAt(build.mavenPlugins, BootPlugin);
      build.PutMavenPlugin(BootPlugin, CustomizeBoot(boot));
      assert build.mavenPlugins == AddBootPlugin(withAot);
      if Has(build.dependencies, DataJpaId) {
        ConfigureHibernateEnhancePlugin(build);
      }
    }

    /** Runs ten places ahead of the lowest precedence, after the general customizers. */
    function GetOrder(): (order: int)
      ensures order < LowestPrecedence && LowestPrecedence - order == 10
    {
      LowestPrecedence - 10
    }

    method ConfigureHibernateEnhancePlugin(build: Build)
      requires build.Valid() && build.system == Maven
      modifies build
      ensures build.Valid()
      ensures build.State() == old(build.State()).(mavenPlugins := ApplyHibernateEnhance(old(build.mavenPlugins)))
    {
      var p := PluginAt(build.mavenPlugins, HibernateEnhancePlugin);
      build.PutMavenPlugin(HibernateEnhancePlugin, CustomizeHibernateEnhance(p));
    }
  }
}
