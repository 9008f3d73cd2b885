/**
 * The lookups of the Spring Native project generation configuration: the
 * Hibernate version Spring Boot manages, the Maven repository the `native`
 * dependency lives in, and which customizers take part for a build system.
 */
module SpringNativeConfiguration {
  import opened Wrappers
  import opened Errors
  import opened Keyed
  import opened BuildModel
  import opened VersionResolution
  import SpringNativeBuild

  const HibernateCore := "org.hibernate:hibernate-core"

  /** The BOM the Hibernate version is read from: Spring Boot's dependencies at the Spring Boot version. */
  function BootDependencies(springBootVersion: string): Bom {
    Bom("org.springframework.boot", "spring-boot-dependencies", springBootVersion)
  }

  /**
   * What the supplier built by `determineHibernateVersion` yields: the
   * version Spring Boot manages for Hibernate, as a literal.
   */
  function HibernateVersion(resolver: Resolver, springBootVersion: string): (r: Result<VersionReference, Error>)
    ensures r.Success? <==> BootDependencies(springBootVersion) in resolver
                            && HibernateCore in resolver[BootDependencies(springBootVersion)]
    // a literal version, not a property, whose text is the managed version
    ensures r.Success? ==> r.value.Value?
                           && r.value.ToString() == resolver[BootDependencies(springBootVersion)][HibernateCore]
    ensures BootDependencies(springBootVersion) !in resolver
            ==> r == Failure(ResolutionUnavailable("org.springframework.boot", "spring-boot-dependencies",
                                                   springBootVersion))
    ensures BootDependencies(springBootVersion) in resolver
            && HibernateCore !in resolver[BootDependencies(springBootVersion)]
            ==> r == Failure(IllegalState("Failed to determine Hibernate version for Spring Boot " + springBootVersion))
  {
    match Resolve(resolver, "org.springframework.boot", "spring-boot-dependencies", springBootVersion)
    case Failure(e) => Failure(e)
    case Success(managed) =>
      if HibernateCore in managed then Success(Value(managed[HibernateCore]))
      else Failure(IllegalState("Failed to determine Hibernate version for Spring Boot " + springBootVersion))
  }

  /**
   * The lazy supplier `determineHibernateVersion` returns. Building it
   * consults nothing; every `Get` resolves the BOM anew. The ghost counter
   * records how often it was asked.
   */
  class HibernateVersionSupplier {
    const resolver: Resolver
    const springBootVersion: string
    ghost var invocations: nat

    constructor (resolver: Resolver, springBootVersion: string)
      ensures this.resolver == resolver && this.springBootVersion == springBootVersion
      ensures invocations == 0
    {
      this.resolver := resolver;
      this.springBootVersion := springBootVersion;
      invocations := 0;
    }

    method Get() returns (r: Result<VersionReference, Error>)
      modifies this
      ensures invocations == old(invocations) + 1
      ensures r == HibernateVersion(resolver, springBootVersion)
    {
      invocations := invocations + 1;
      var resolved := Resolve(resolver, "org.springframework.boot", "spring-boot-dependencies", springBootVersion);
      if resolved.Failure? {
        return Failure(resolved.error);
      }
      var hibernateVersion := if HibernateCore in resolved.value then Some(resolved.value[HibernateCore]) else None;
      if hibernateVersion.None? {
        return Failure(IllegalState("Failed to determine Hibernate version for Spring Boot " + springBootVersion));
      }
      return Success(Value(hibernateVersion.value));
    }
  }

  // ---- The native repository ----

  /**
   * A version mapping of a metadata dependency: for the platform versions
   * in its range, it may name another repository.
   */
  datatype Mapping = Mapping(range: set<string>, repository: Option<string>)

  /** A dependency of the service metadata, reduced to what locates its repository. */
  datatype MetadataDependency = MetadataDependency(repository: Option<string>, mappings: seq<Mapping>)

  /** A repository of the service's environment. */
  datatype Repository = Repository(name: string, url: string, snapshotsEnabled: bool)

  /** The service metadata: its dependencies by id and its environment's repositories by id. */
  datatype Metadata = Metadata(dependencies: map<string, MetadataDependency>, repositories: map<string, Repository>)

  /**
   * The repository of `dependency.resolve(platformVersion)`: that of the
   * first mapping whose range holds the platform version, when it names
   * one, and otherwise the dependency's own.
   */
  function ResolvedRepository(dependency: MetadataDependency, platformVersion: string): (r: Option<string>)
    ensures (forall m :: m in dependency.mappings ==> platformVersion !in m.range) ==> r == dependency.repository
    ensures forall i :: 0 <= i < |dependency.mappings| && platformVersion in dependency.mappings[i].range
                        && (forall j :: 0 <= j < i ==> platformVersion !in dependency.mappings[j].range)
                        ==> r == (if dependency.mappings[i].repository.Some? then dependency.mappings[i].repository
                                  else dependency.repository)
    decreases |dependency.mappings|
  {
    if dependency.mappings == [] then dependency.repository
    else if platformVersion in dependency.mappings[0].range then
      (if dependency.mappings[0].repository.Some? then dependency.mappings[0].repository else dependency.repository)
    else
      var rest := dependency.(mappings := dependency.mappings[1..]);
      assert forall i :: 0 <= i < |rest.mappings| ==> rest.mappings[i] == dependency.mappings[i + 1];
      ResolvedRepository(rest, platformVersion)
  }

  /**
   * `determineNativeMavenRepository`: no repository when the resolved
   * `native` dependency names none, otherwise that repository as the
   * environment describes it. It fails when the metadata has no `native`
   * dependency, and when the environment lacks the named repository (the
   * code dereferences null there).
   */
  function DetermineNativeMavenRepository(metadata: Metadata, platformVersion: string)
    : (r: Result<Option<MavenRepository>, Error>)
    ensures SpringNativeBuild.NativeId !in metadata.dependencies
            ==> r == Failure(IllegalState("No metadata found for dependency with id 'native'"))
    ensures SpringNativeBuild.NativeId in metadata.dependencies ==>
              var id := ResolvedRepository(metadata.dependencies[SpringNativeBuild.NativeId], platformVersion);
              && (id.None? ==> r == Success(None))
              && (id.Some? && id.value !in metadata.repositories ==> r.Failure? && r.error.NullPointer?)
              && (id.Some? && id.value in metadata.repositories ==>
                    var repository := metadata.repositories[id.value];
                    r == Success(Some(MavenRepository(id.value, repository.url, repository.name,
                                                      repository.snapshotsEnabled))))
  {
    if SpringNativeBuild.NativeId !in metadata.dependencies then
      Failure(IllegalState("No metadata found for dependency with id 'native'"))
    else
      var repositoryId := ResolvedRepository(metadata.dependencies[SpringNativeBuild.NativeId], platformVersion);
      match repositoryId
      case None => Success(None)
      case Some(id) =>
        if id !in metadata.repositories then Failure(NullPointer("repository"))
        else
          var repository := metadata.repositories[id];
          Success(Some(MavenRepository(id, repository.url, repository.name, repository.snapshotsEnabled)))
  }

  /**
   * The general customizer built from the determined repository registers,
   * on a build without plugin repositories, exactly the repository the
   * resolved `native` dependency names, or none.
   */
  lemma RegistersNativeRepository(metadata: Metadata, platformVersion: string, s: BuildState)
    requires SpringNativeBuild.NativeId in metadata.dependencies
    requires DetermineNativeMavenRepository(metadata, platformVersion).Success?
    requires s.Valid() && SpringNativeBuild.HasLiteralNative(s.dependencies) && s.pluginRepositories == []
    ensures var id := ResolvedRepository(metadata.dependencies[SpringNativeBuild.NativeId], platformVersion);
            var repository := DetermineNativeMavenRepository(metadata, platformVersion).value;
            Keys(SpringNativeBuild.Apply(s, repository).pluginRepositories) == if id.Some? then [id.value] else []
  {
    var repository := DetermineNativeMavenRepository(metadata, platformVersion).value;
    if repository.Some? {
      UpsertNew<string, MavenRepository>([], repository.value.id, repository.value);
      assert [Entry(repository.value.id, repository.value)][1..] == [];
    }
  }

  // ---- Which customizers take part ----

  /** The customizers the configuration contributes. */
  datatype Bean =
    | HelpDocumentCustomizer
    | BuildCustomizer
    | MavenBuildCustomizer
    | GradleBuildCustomizer

  /**
   * The beans contributed for a project: none unless `native` was requested;
   * then the help and general customizers, plus the one of the build system.
   */
  function Beans(requestedDependencies: set<string>, system: BuildSystem): (beans: set<Bean>)
    ensures SpringNativeBuild.NativeId !in requestedDependencies ==> beans == {}
    ensures HelpDocumentCustomizer in beans <==> SpringNativeBuild.NativeId in requestedDependencies
    ensures BuildCustomizer in beans <==> SpringNativeBuild.NativeId in requestedDependencies
    ensures MavenBuildCustomizer in beans <==> SpringNativeBuild.NativeId in requestedDependencies && system == Maven
    ensures GradleBuildCustomizer in beans <==> SpringNativeBuild.NativeId in requestedDependencies && system == Gradle
  {
    if SpringNativeBuild.NativeId !in requestedDependencies then {}
    else {HelpDocumentCustomizer, BuildCustomizer} + (if system == Maven then {MavenBuildCustomizer} else {GradleBuildCustomizer})
  }

  /** With `native` requested, exactly one build-system-specific customizer takes part. */
  lemma OneBuildSystemCustomizer(requestedDependencies: set<string>, system: BuildSystem)
    requires SpringNativeBuild.NativeId in requestedDependencies
    ensures |Beans(requestedDependencies, system) * {MavenBuildCustomizer, GradleBuildCustomizer}| == 1
  {
    var beans := Beans(requestedDependencies, system);
    if system == Maven {
      assert beans * {MavenBuildCustomizer, GradleBuildCustomizer} == {MavenBuildCustomizer};
    } else {
      assert beans * {MavenBuildCustomizer, GradleBuildCustomizer} == {GradleBuildCustomizer};
    }
  }
}
