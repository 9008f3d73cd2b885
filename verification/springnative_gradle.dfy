/**
 * The Spring Native customizer for Gradle builds: it applies the Spring AOT
 * plugin at the Spring Native version the build exposes and configures the
 * `bootBuildImage` task to build a native image with the tiny Paketo builder.
 */
module SpringNativeGradleBuild {
  import opened Wrappers
  import opened Keyed
  import opened BuildModel
  import SpringNativeBuild

  const AotPluginId := "org.springframework.experimental.aot"
  const BootBuildImage := "bootBuildImage"
  const Builder := "'paketobuildpacks/builder:tiny'"
  const Environment := "['BP_BOOT_NATIVE_IMAGE': 'true']"

  /** What the `bootBuildImage` customizer does to the (fetched or new) task. */
  function CustomizeBootBuildImage(task: Task): (r: Task)
    ensures Find(r.attributes, "builder") == Some(Builder)
    ensures Find(r.attributes, "environment") == Some(Environment)
    ensures forall a :: a != "builder" && a != "environment" ==> Find(r.attributes, a) == Find(task.attributes, a)
    ensures r.nested == task.nested
  {
    task.(attributes := Upsert(Upsert(task.attributes, "builder", Builder), "environment", Environment))
  }

  /** The build after the AOT plugin step of `customize`. */
  function AddAotPlugin(s: BuildState): (r: BuildState)
    requires s.Valid()
    ensures r.Valid()
    ensures Find(r.gradlePlugins, AotPluginId) == Some(FirstVersion(s.versions, "springNativeVersion"))
    ensures forall id :: id != AotPluginId ==> Find(r.gradlePlugins, id) == Find(s.gradlePlugins, id)
    ensures r == s.(gradlePlugins := r.gradlePlugins)
  {
    s.WithGradlePlugin(AotPluginId, FirstVersion(s.versions, "springNativeVersion"))
  }

  /** The build after the `bootBuildImage` step of `customize`. */
  function ConfigureBootBuildImage(s: BuildState): (r: BuildState)
    requires s.Valid()
    ensures r.Valid()
    ensures Find(r.tasks, BootBuildImage) == Some(CustomizeBootBuildImage(FindOr(s.tasks, BootBuildImage, EmptyTask)))
    ensures forall name :: name != BootBuildImage ==> Find(r.tasks, name) == Find(s.tasks, name)
    ensures r == s.(tasks := r.tasks)
  {
    s.WithTask(BootBuildImage, CustomizeBootBuildImage(FindOr(s.tasks, BootBuildImage, EmptyTask)))
  }

  /** The build after `customize`. */
  function Apply(s: BuildState): (r: BuildState)
    requires s.Valid()
    ensures r.Valid()
    // the AOT plugin is always there, at the first `springNativeVersion` property's value, if any
    ensures Find(r.gradlePlugins, AotPluginId) == Some(FirstVersion(s.versions, "springNativeVersion"))
    ensures forall id :: id != AotPluginId ==> Find(r.gradlePlugins, id) == Find(s.gradlePlugins, id)
    // `bootBuildImage` gets both attributes and keeps the others it had
    ensures var t := Find(r.tasks, BootBuildImage);
            && t.Some?
            && Find(t.value.attributes, "builder") == Some(Builder)
            && Find(t.value.attributes, "environment") == Some(Environment)
    ensures forall a :: a != "builder" && a != "environment" ==>
              Find(Find(r.tasks, BootBuildImage).value.attributes, a)
              == Find(FindOr(s.tasks, BootBuildImage, EmptyTask).attributes, a)
    ensures forall name :: name != BootBuildImage ==> Find(r.tasks, name) == Find(s.tasks, name)
    // dependencies, properties and everything else are untouched
    ensures r == s.(gradlePlugins := r.gradlePlugins, tasks := r.tasks)
  {
    ConfigureBootBuildImage(AddAotPlugin(s))
  }

  /**
   * Run after the general Spring Native customizer, on a build where no
   * other property is named `springNativeVersion` in camel case, the AOT
   * plugin gets exactly the version the `native` dependency had.
   */
  lemma AotVersionIsNativeVersion(s: BuildState, pluginRepository: Option<MavenRepository>)
    requires s.Valid() && SpringNativeBuild.HasLiteralNative(s.dependencies)
    requires forall q :: q in Keys(s.versions) && q != SpringNativeBuild.SpringNativeVersion
                         ==> q.camelCase != "springNativeVersion"
    ensures Find(Apply(SpringNativeBuild.Apply(s, pluginRepository)).gradlePlugins, AotPluginId)
            == Some(Some(SpringNativeBuild.NativeVersion(s.dependencies)))
  {
    var r := SpringNativeBuild.Apply(s, pluginRepository);
    forall q | q in Keys(r.versions) && q != SpringNativeBuild.SpringNativeVersion
      ensures q.camelCase != "springNativeVersion"
    {
      assert Find(r.versions, q) == Find(s.versions, q);
    }
    FirstVersionOfUnique(r.versions, SpringNativeBuild.SpringNativeVersion, "springNativeVersion");
  }

  class SpringNativeGradleBuildCustomizer {

    method Customize(build: Build)
      requires build.Valid() && build.system == Gradle
      modifies build
      ensures build.Valid()
      ensures build.State() == Apply(old(build.State()))
    {
      var springNativeVersion := FirstVersion(build.versions, "springNativeVersion");
      // AOT plugin
      build.AddGradlePlugin(AotPluginId, springNativeVersion);
      assert build.State() == AddAotPlugin(old(build.State()));
      // Spring Boot plugin
      var task := FindOr(build.tasks, BootBuildImage, EmptyTask);
      build.PutTask(BootBuildImage, CustomizeBootBuildImage(task));
    }

    /** Runs ten places ahead of the lowest precedence, after the general customizers. */
    function GetOrder(): (order: int)
      ensures order < LowestPrecedence && LowestPrecedence - order == 10
    {
      LowestPrecedence - 10
    }
  }
}
