/**
 * The GraalVM customizer for Gradle builds: it applies the GraalVM native
 * build tools plugin when a version of it is known and, when JPA is used,
 * the Hibernate plugin at the version the lazy supplier yields, with its
 * `hibernate` task enabling bytecode enhancement.
 */
module GraalVmGradleBuild {
  import opened Wrappers
  import opened Errors
  import opened Keyed
  import opened BuildModel
  import opened SpringNativeConfiguration

  const NativeBuildToolsPluginId := "org.graalvm.buildtools.native"
  const HibernatePluginId := "org.hibernate.orm"
  const HibernateTask := "hibernate"

  /** The attributes of the `enhancement` block, in declaration order. */
  const EnhancementAttributes := [
    Entry("lazyInitialization", "true"),
    Entry("dirtyTracking", "true"),
    Entry("associationManagement", "true")]

  /** Whether `name` is one of the three enhancement attributes. */
  predicate IsEnhancementAttribute(name: string) {
    name == "lazyInitialization" || name == "dirtyTracking" || name == "associationManagement"
  }

  /** The three enhancement attributes set, each added or replaced in turn; the others are kept. */
  function SetEnhancement(attributes: seq<Entry<string, string>>): (r: seq<Entry<string, string>>)
    ensures Find(r, "lazyInitialization") == Some("true")
    ensures Find(r, "dirtyTracking") == Some("true")
    ensures Find(r, "associationManagement") == Some("true")
    ensures forall name :: !IsEnhancementAttribute(name) ==> Find(r, name) == Find(attributes, name)
  {
    var lazy := Upsert(attributes, "lazyInitialization", "true");
    var dirty := Upsert(lazy, "dirtyTracking", "true");
    Upsert(dirty, "associationManagement", "true")
  }

  /**
   * What the `hibernate` task customizer does: it sets the three attributes
   * of its (fetched or new) `enhancement` block, keeping everything else.
   */
  function CustomizeHibernateTask(task: Task): (r: Task)
    ensures r.attributes == task.attributes
    ensures var e := Find(r.nested, "enhancement");
            && e.Some?
            && Find(e.value.attributes, "lazyInitialization") == Some("true")
            && Find(e.value.attributes, "dirtyTracking") == Some("true")
            && Find(e.value.attributes, "associationManagement") == Some("true")
    ensures var e := Find(r.nested, "enhancement");
            var before := NestedAt(task, "enhancement");
            && e.Some?
            && e.value.nested == before.nested
            && forall name :: !IsEnhancementAttribute(name)
                              ==> Find(e.value.attributes, name) == Find(before.attributes, name)
    ensures forall name :: name != "enhancement" ==> Find(r.nested, name) == Find(task.nested, name)
  {
    var enhancement := NestedAt(task, "enhancement");
    task.(nested := Upsert(task.nested, "enhancement", enhancement.(attributes := SetEnhancement(enhancement.attributes))))
  }

  /** The build after the native build tools step of `customize`. */
  function AddNativeBuildToolsPlugin(s: BuildState, nbtVersion: Option<string>): (r: BuildState)
    requires s.Valid()
    ensures r.Valid()
    ensures nbtVersion.Some? ==> Find(r.gradlePlugins, NativeBuildToolsPluginId) == Some(nbtVersion)
    ensures nbtVersion.None? ==> r == s
    ensures forall id :: id != NativeBuildToolsPluginId ==> Find(r.gradlePlugins, id) == Find(s.gradlePlugins, id)
    ensures r == s.(gradlePlugins := r.gradlePlugins)
  {
    if nbtVersion.None? then s else s.WithGradlePlugin(NativeBuildToolsPluginId, nbtVersion)
  }

  /** The build after the Hibernate plugin step of `customize`, given the supplier's version. */
  function AddHibernatePlugin(s: BuildState, version: VersionReference): (r: BuildState)
    requires s.Valid()
    ensures r.Valid()
    ensures Find(r.gradlePlugins, HibernatePluginId) == Some(Some(version.ToString()))
    ensures forall id :: id != HibernatePluginId ==> Find(r.gradlePlugins, id) == Find(s.gradlePlugins, id)
    ensures r == s.(gradlePlugins := r.gradlePlugins)
  {
    s.WithGradlePlugin(HibernatePluginId, Some(version.ToString()))
  }

  /** The build after `configureHibernateEnhancePlugin`. */
  function ApplyHibernateEnhance(s: BuildState): (r: BuildState)
    requires s.Valid()
    ensures r.Valid()
    ensures Find(r.tasks, HibernateTask) == Some(CustomizeHibernateTask(FindOr(s.tasks, HibernateTask, EmptyTask)))
    ensures forall name :: name != HibernateTask ==> Find(r.tasks, name) == Find(s.tasks, name)
    ensures r == s.(tasks := r.tasks)
  {
    s.WithTask(HibernateTask, CustomizeHibernateTask(FindOr(s.tasks, HibernateTask, EmptyTask)))
  }

  /** A build after a customizer that may throw: the state reached, and whether it completed. */
  datatype Customized = Customized(state: BuildState, outcome: Outcome<Error>)

  /**
   * The build after `customize`, with `hibernateVersion` what the supplier
   * yields if asked. When the supplier fails, its error escapes and the
   * build keeps what the earlier steps did.
   */
  function Apply(s: BuildState, nbtVersion: Option<string>, hibernateVersion: Result<VersionReference, Error>)
    : (r: Customized)
    requires s.Valid()
    ensures r.state.Valid()
    ensures r.outcome.Fail? <==> Has(s.dependencies, DataJpaId) && hibernateVersion.Failure?
    ensures r.outcome.Fail? ==> r.outcome.error == hibernateVersion.error
    // the native build tools plugin exactly when its version is known
    ensures nbtVersion.Some? ==> Find(r.state.gradlePlugins, NativeBuildToolsPluginId) == Some(nbtVersion)
    ensures nbtVersion.None? ==> Find(r.state.gradlePlugins, NativeBuildToolsPluginId)
                                 == Find(s.gradlePlugins, NativeBuildToolsPluginId)
    // with JPA, the Hibernate plugin at the supplied version and the enhancement task
    ensures Has(s.dependencies, DataJpaId) && hibernateVersion.Success? ==>
              && Find(r.state.gradlePlugins, HibernatePluginId) == Some(Some(hibernateVersion.value.ToString()))
              && Find(r.state.tasks, HibernateTask).Some?
              && var e := Find(Find(r.state.tasks, HibernateTask).value.nested, "enhancement");
              && e.Some?
              && Find(e.value.attributes, "lazyInitialization") == Some("true")
              && Find(e.value.attributes, "dirtyTracking") == Some("true")
              && Find(e.value.attributes, "associationManagement") == Some("true")
    // without it (or when the supplier fails), neither
    ensures !(Has(s.dependencies, DataJpaId) && hibernateVersion.Success?) ==>
              && Find(r.state.gradlePlugins, HibernatePluginId) == Find(s.gradlePlugins, HibernatePluginId)
              && r.state.tasks == s.tasks
    ensures forall id :: id != NativeBuildToolsPluginId && id != HibernatePluginId
                         ==> Find(r.state.gradlePlugins, id) == Find(s.gradlePlugins, id)
    ensures forall name :: name != HibernateTask ==> Find(r.state.tasks, name) == Find(s.tasks, name)
    // dependencies and everything but plugins and tasks are untouched
    ensures r.state == s.(gradlePlugins := r.state.gradlePlugins, tasks := r.state.tasks)
  {
    var s1 := AddNativeBuildToolsPlugin(s, nbtVersion);
    // the Spring Boot plugin hook does nothing here
    if !Has(s1.dependencies, DataJpaId) then Customized(s1, Pass)
    else
      match hibernateVersion
      case Failure(e) => Customized(s1, Fail(e))
      case Success(version) =>
        var s2 := AddHibernatePlugin(s1, version);
        var s3 := ApplyHibernateEnhance(s2);
        assert Find(s3.gradlePlugins, NativeBuildToolsPluginId) == Find(s1.gradlePlugins, NativeBuildToolsPluginId);
        Customized(s3, Pass)
  }

  /**
   * On a build with no plugin and no task yet, using JPA and with a known
   * native build tools version, the plugins are exactly the native build
   * tools plugin then the Hibernate plugin, and the one task is `hibernate`
   * whose only block, `enhancement`, has exactly the three attributes in order.
   */
  lemma ApplyToNoPluginsWithJpa(s: BuildState, nbtVersion: string, hibernateVersion: VersionReference)
    requires s.Valid() && s.gradlePlugins == [] && s.tasks == []
    requires Has(s.dependencies, DataJpaId)
    ensures var r := Apply(s, Some(nbtVersion), Success(hibernateVersion));
            && r.outcome == Pass
            && r.state.gradlePlugins == [Entry(NativeBuildToolsPluginId, Some(nbtVersion)),
                                         Entry(HibernatePluginId, Some(hibernateVersion.ToString()))]
            && r.state.tasks == [Entry(HibernateTask, Task([], [Entry("enhancement", Task(EnhancementAttributes, []))]))]
  {
    var s1 := AddNativeBuildToolsPlugin(s, Some(nbtVersion));
    UpsertNew<string, Option<string>>([], NativeBuildToolsPluginId, Some(nbtVersion));
    assert s1.gradlePlugins == [Entry(NativeBuildToolsPluginId, Some(nbtVersion))];
    var s2 := AddHibernatePlugin(s1, hibernateVersion);
    AddHibernatePluginAfterNativeBuildTools(s1, nbtVersion, hibernateVersion);
    var s3 := ApplyHibernateEnhance(s2);
    ApplyHibernateEnhanceOnNoTask(s2);
  }

  lemma AddHibernatePluginAfterNativeBuildTools(s: BuildState, nbtVersion: string, version: VersionReference)
    requires s.Valid() && s.gradlePlugins == [Entry(NativeBuildToolsPluginId, Some(nbtVersion))]
    ensures AddHibernatePlugin(s, version).gradlePlugins
            == [Entry(NativeBuildToolsPluginId, Some(nbtVersion)), Entry(HibernatePluginId, Some(version.ToString()))]
  {
    assert HibernatePluginId !in Keys(s.gradlePlugins);
    UpsertNew(s.gradlePlugins, HibernatePluginId, Some(version.ToString()));
  }

  lemma ApplyHibernateEnhanceOnNoTask(s: BuildState)
    requires s.Valid() && s.tasks == []
    ensures ApplyHibernateEnhance(s).tasks
            == [Entry(HibernateTask, Task([], [Entry("enhancement", Task(EnhancementAttributes, []))]))]
  {
    CustomizeNewHibernateTask();
    assert FindOr<string, Task>([], HibernateTask, EmptyTask) == EmptyTask;
    UpsertNew<string, Task>([], HibernateTask, CustomizeHibernateTask(EmptyTask));
  }

  lemma CustomizeNewHibernateTask()
    ensures CustomizeHibernateTask(EmptyTask) == Task([], [Entry("enhancement", Task(EnhancementAttributes, []))])
  {
    assert NestedAt(EmptyTask, "enhancement") == EmptyTask;
    SetEnhancementOnNone();
    UpsertNew<string, Task>([], "enhancement", Task(EnhancementAttributes, []));
  }

  lemma SetEnhancementOnNone()
    ensures SetEnhancement([]) == EnhancementAttributes
  {
    var lazy := Upsert<string, string>([], "lazyInitialization", "true");
    UpsertNew<string, string>([], "lazyInitialization", "true");
    assert Keys(lazy) == ["lazyInitialization"];
    var dirty := Upsert(lazy, "dirtyTracking", "true");
    UpsertNew(lazy, "dirtyTracking", "true");
    assert Keys(dirty) == ["lazyInitialization", "dirtyTracking"];
    UpsertNew(dirty, "associationManagement", "true");
    assert SetEnhancement([]) == dirty + [Entry("associationManagement", "true")];
  }

  class GraalVmGradleBuildCustomizer {
    /** The version of the native build tools plugin, `None` when none is known for the platform. */
    const nbtVersion: Option<string>
    const hibernateVersion: HibernateVersionSupplier

    constructor (nbtVersion: Option<string>, hibernateVersion: HibernateVersionSupplier)
      ensures this.nbtVersion == nbtVersion && this.hibernateVersion == hibernateVersion
    {
      this.nbtVersion := nbtVersion;
      this.hibernateVersion := hibernateVersion;
    }

    /** Asks the supplier exactly once when JPA is used, and never otherwise. */
    method Customize(build: Build) returns (outcome: Outcome<Error>)
      requires build.Valid() && build.system == Gradle
      modifies build, hibernateVersion
      ensures build.Valid()
      ensures hibernateVersion.invocations
              == old(hibernateVersion.invocations) + if Has(old(build.dependencies), DataJpaId) then 1 else 0
      ensures Customized(build.State(), outcome)
              == Apply(old(build.State()), nbtVersion,
                       HibernateVersion(hibernateVersion.resolver, hibernateVersion.springBootVersion))
    {
      if nbtVersion.Some? {
        build.AddGradlePlugin(NativeBuildToolsPluginId, nbtVersion);
      }
      // Spring Boot plugin
      CustomizeSpringBootPlugin(build);
      if Has(build.dependencies, DataJpaId) {
        var version := hibernateVersion.Get();
        if version.Failure? {
          return Fail(version.error);
        }
        build.AddGradlePlugin(HibernatePluginId, Some(version.value.ToString()));
        ConfigureHibernateEnhancePlugin(build);
      }
      return Pass;
    }

    /** The hook for the Spring Boot plugin; it leaves the build as it is. */
    method CustomizeSpringBootPlugin(build: Build)
      requires build.Valid() && build.system == Gradle
      modifies build
      ensures build.Valid()
      ensures build.State() == old(build.State())
    {
    }

    method ConfigureHibernateEnhancePlugin(build: Build)
      requires build.Valid() && build.system == Gradle
      modifies build
      ensures build.Valid()
      ensures build.State() == ApplyHibernateEnhance(old(build.State()))
    {
      var task := FindOr(build.tasks, HibernateTask, EmptyTask);
      build.PutTask(HibernateTask, CustomizeHibernateTask(task));
    }
  }
}
