/**
 * The general Spring Native customizer, applied to Maven and Gradle builds
 * alike: it lifts the literal version of the `native` dependency into the
 * version property `spring-native.version`, re-points the dependency at
 * that property and, when one was determined, registers a plugin repository.
 */
module SpringNativeBuild {
  import opened Wrappers
  import opened Keyed
  import opened BuildModel

  const NativeId := "native"
  const SpringNativeVersion := VersionProperty("spring-native.version", "springNativeVersion")

  /** The build has a `native` dependency whose version is a literal value. */
  predicate HasLiteralNative(dependencies: seq<Entry<string, Dependency>>) {
    var found := Find(dependencies, NativeId);
    found.Some? && found.value.version.Some? && found.value.version.value.Value?
  }

  /** The literal version of the `native` dependency. */
  function NativeVersion(dependencies: seq<Entry<string, Dependency>>): string
    requires HasLiteralNative(dependencies)
  {
    Find(dependencies, NativeId).value.version.value.value
  }

  /** The `native` dependency, its version replaced by a reference to `spring-native.version`. */
  function NativeWithProperty(dependencies: seq<Entry<string, Dependency>>): Dependency
    requires HasLiteralNative(dependencies)
  {
    Find(dependencies, NativeId).value.(version := Some(Property(SpringNativeVersion)))
  }

  /** The build after `customize`. */
  function Apply(s: BuildState, pluginRepository: Option<MavenRepository>): (r: BuildState)
    requires s.Valid() && HasLiteralNative(s.dependencies)
    ensures r.Valid()
    // the property holds the version the dependency had; no other property changes
    ensures Find(r.versions, SpringNativeVersion) == Some(NativeVersion(s.dependencies))
    ensures forall p :: p != SpringNativeVersion ==> Find(r.versions, p) == Find(s.versions, p)
    // the dependency now refers to the property, with its coordinates unchanged
    ensures Find(r.dependencies, NativeId).Some?
    ensures Find(r.dependencies, NativeId).value.version == Some(Property(SpringNativeVersion))
    ensures Find(r.dependencies, NativeId).value.groupId == Find(s.dependencies, NativeId).value.groupId
    ensures Find(r.dependencies, NativeId).value.artifactId == Find(s.dependencies, NativeId).value.artifactId
    // it was replaced, not added: still one `native`, no other dependency changed
    ensures Count(r.dependencies, NativeId) == 1
    ensures Keys(r.dependencies) == Keys(s.dependencies)
    ensures forall id :: id != NativeId ==> Find(r.dependencies, id) == Find(s.dependencies, id)
    // a plugin repository is registered exactly when one was given
    ensures pluginRepository.None? ==> r.pluginRepositories == s.pluginRepositories
    ensures pluginRepository.Some? ==> Find(r.pluginRepositories, pluginRepository.value.id) == pluginRepository
    ensures pluginRepository.Some? ==> forall id :: id != pluginRepository.value.id ==>
              Find(r.pluginRepositories, id) == Find(s.pluginRepositories, id)
    ensures r.gradlePlugins == s.gradlePlugins && r.tasks == s.tasks && r.mavenPlugins == s.mavenPlugins
  {
    var version := NativeVersion(s.dependencies);
    var dependencies := Upsert(s.dependencies, NativeId, NativeWithProperty(s.dependencies));
    UpsertKeepsUnique(s.versions, SpringNativeVersion, version);
    UpsertKeepsUnique(s.dependencies, NativeId, NativeWithProperty(s.dependencies));
    CountUnique(dependencies, NativeId);
    var r := s.(versions := Upsert(s.versions, SpringNativeVersion, version), dependencies := dependencies);
    match pluginRepository
    case None => r
    case Some(repository) =>
      UpsertKeepsUnique(s.pluginRepositories, repository.id, repository);
      r.(pluginRepositories := Upsert(s.pluginRepositories, repository.id, repository))
  }

  /**
   * On a build holding only a `native` dependency at a literal version, the
   * one version property is `spring-native.version` at that version, the
   * dependency refers to it, and the plugin repositories are exactly the one
   * given, if any.
   */
  lemma ApplyToNativeOnly(groupId: string, artifactId: string, version: string,
                          pluginRepository: Option<MavenRepository>)
    ensures var s := BuildState([Entry(NativeId, Dependency(groupId, artifactId, Some(Value(version))))],
                                [], [], [], [], []);
            && s.Valid()
            && var r := Apply(s, pluginRepository);
            && r.versions == [Entry(SpringNativeVersion, version)]
            && r.dependencies == [Entry(NativeId, Dependency(groupId, artifactId, Some(Property(SpringNativeVersion))))]
            && Keys(r.pluginRepositories) == (if pluginRepository.Some? then [pluginRepository.value.id] else [])
  {
    var native := Entry(NativeId, Dependency(groupId, artifactId, Some(Value(version))));
    assert Keys([native]) == [NativeId];
    assert Keys<string, string>([]) == [];

  }

  class SpringNativeBuildCustomizer {
    /** The plugin repository to register; `None` stands for Java's null. */
    const pluginRepository: Option<MavenRepository>

    constructor (pluginRepository: Option<MavenRepository>)
      ensures this.pluginRepository == pluginRepository
    {
      this.pluginRepository := pluginRepository;
    }

    method Customize(build: Build)
      requires build.Valid() && HasLiteralNative(build.dependencies)
      modifies build
      ensures build.Valid()
      ensures build.State() == Apply(old(build.State()), pluginRepository)
    {
      var dependency := Find(build.dependencies, NativeId).value;
      var springNativeVersion := dependency.version.value.value;
      // expose a property
      build.SetVersion(SpringNativeVersion, springNativeVersion);
      // update the dependency to reuse the property
      build.AddDependency(NativeId, dependency.(version := Some(Property(SpringNativeVersion))));
      // register a plugin repository if necessary
      if pluginRepository.Some? {
        build.AddPluginRepository(pluginRepository.value);
      }
    }
  }
}
