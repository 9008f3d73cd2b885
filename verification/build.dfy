/**
 * The in-memory build descriptor the customizers change. Its classes belong
 * to a library that is not part of this model; they are modelled here with
 * the one rule the customizers rely on: every collection is keyed by id, and
 * adding an id that is already present replaces (or, for plugins and tasks,
 * customizes) the existing entry instead of duplicating it.
 */
module BuildModel {
  import opened Wrappers
  import opened Errors
  import opened Keyed

  /**
   * A version property, with its two spellings: the standard one
   * (`spring-native.version`) and the camel-case one (`springNativeVersion`).
   * The library derives the second from the first; that naming function is
   * not modelled and each property carries both.
   */
  datatype VersionProperty = VersionProperty(standard: string, camelCase: string)

  /** A version: a literal value, or a reference to a version property. */
  datatype VersionReference = Value(value: string) | Property(property: VersionProperty) {
    /** The text of the reference: the value itself, or `${name}` for a property. */
    function ToString(): string {
      match this
      case Value(v) => v
      case Property(p) => "${" + p.standard + "}"
    }
  }

  /** A dependency of the build. Other attributes (scope, type, ...) are not modelled. */
  datatype Dependency = Dependency(groupId: string, artifactId: string, version: Option<VersionReference>)

  datatype MavenRepository = MavenRepository(id: string, url: string, name: string, snapshotsEnabled: bool)

  /** A Maven configuration value: a text leaf or a nested block of settings. */
  datatype Setting = Text(text: string) | Block(settings: seq<Entry<string, Setting>>)

  type Settings = seq<Entry<string, Setting>>

  datatype Execution = Execution(goals: seq<string>, configuration: Settings)

  datatype Coordinates = Coordinates(groupId: string, artifactId: string)

  datatype MavenPlugin = MavenPlugin(version: Option<string>, executions: seq<Entry<string, Execution>>,
                                     configuration: Settings)

  /** A Gradle task customization: its attributes and its nested blocks. */
  datatype Task = Task(attributes: seq<Entry<string, string>>, nested: seq<Entry<string, Task>>)

  datatype BuildSystem = Maven | Gradle

  /** The id of the Spring Data JPA dependency, which makes the customizers add Hibernate enhancement. */
  const DataJpaId := "data-jpa"

  const EmptyMavenPlugin := MavenPlugin(None, [], [])
  const EmptyExecution := Execution([], [])
  const EmptyTask := Task([], [])

  /** The abstract value of a build: its collections, each in insertion order. */
  datatype BuildState = BuildState(
    dependencies: seq<Entry<string, Dependency>>,
    versions: seq<Entry<VersionProperty, string>>,
    pluginRepositories: seq<Entry<string, MavenRepository>>,
    gradlePlugins: seq<Entry<string, Option<string>>>,
    tasks: seq<Entry<string, Task>>,
    mavenPlugins: seq<Entry<Coordinates, MavenPlugin>>)
  {
    /** Ids are unique in every collection. */
    predicate Valid() {
      && UniqueKeys(dependencies)
      && UniqueKeys(versions)
      && UniqueKeys(pluginRepositories)
      && UniqueKeys(gradlePlugins)
      && UniqueKeys(tasks)
      && UniqueKeys(mavenPlugins)
    }

    // Each update below adds or replaces one entry of one collection; ids stay distinct.

    function WithDependency(id: string, dependency: Dependency): (r: BuildState)
      requires Valid()
      ensures r.Valid()
      ensures r == this.(dependencies := Upsert(dependencies, id, dependency))
    {
      UpsertKeepsUnique(dependencies, id, dependency);
      this.(dependencies := Upsert(dependencies, id, dependency))
    }

    function WithVersion(property: VersionProperty, value: string): (r: BuildState)
      requires Valid()
      ensures r.Valid()
      ensures r == this.(versions := Upsert(versions, property, value))
    {
      UpsertKeepsUnique(versions, property, value);
      this.(versions := Upsert(versions, property, value))
    }

    function WithPluginRepository(repository: MavenRepository): (r: BuildState)
      requires Valid()
      ensures r.Valid()
      ensures r == this.(pluginRepositories := Upsert(pluginRepositories, repository.id, repository))
    {
      UpsertKeepsUnique(pluginRepositories, repository.id, repository);
      this.(pluginRepositories := Upsert(pluginRepositories, repository.id, repository))
    }

    function WithGradlePlugin(id: string, version: Option<string>): (r: BuildState)
      requires Valid()
      ensures r.Valid()
      ensures r == this.(gradlePlugins := Upsert(gradlePlugins, id, version))
    {
      UpsertKeepsUnique(gradlePlugins, id, version);
      this.(gradlePlugins := Upsert(gradlePlugins, id, version))
    }

    function WithTask(name: string, task: Task): (r: BuildState)
      requires Valid()
      ensures r.Valid()
      ensures r == this.(tasks := Upsert(tasks, name, task))
    {
      UpsertKeepsUnique(tasks, name, task);
      this.(tasks := Upsert(tasks, name, task))
    }

    function WithMavenPlugin(coordinates: Coordinates, plugin: MavenPlugin): (r: BuildState)
      requires Valid()
      ensures r.Valid()
      ensures r == this.(mavenPlugins := Upsert(mavenPlugins, coordinates, plugin))
    {
      UpsertKeepsUnique(mavenPlugins, coordinates, plugin);
      this.(mavenPlugins := Upsert(mavenPlugins, coordinates, plugin))
    }
  }

  // ---- Attribute trees (Maven configuration and Gradle tasks) ----

  /** The nested task block `name`, or an empty one (get-or-create). */
  function NestedAt(task: Task, name: string): Task {
    FindOr(task.nested, name, EmptyTask)
  }

  /** `suffix` is what `s` ends with. */
  predicate EndsWith<T(==)>(s: seq<T>, suffix: seq<T>) {
    |suffix| <= |s| && s[|s| - |suffix|..] == suffix
  }

  lemma EndsWithAppend<T>(s: seq<T>, suffix: seq<T>)
    ensures EndsWith(s + suffix, suffix)
  {
    assert (s + suffix)[|s|..] == suffix;
  }

  /** The execution `id` of a plugin, or an empty one (get-or-create). */
  function ExecutionAt(p: MavenPlugin, id: string): Execution {
    FindOr(p.executions, id, EmptyExecution)
  }

  /**
   * Maven `plugin.execution(id, e -> e.goal(goal).configuration(...))`: the
   * execution `id` is fetched or created, `goal` is appended to its goals
   * and `configuration` to its configuration; other executions are kept.
   */
  function WithExecution(p: MavenPlugin, id: string, goal: string, configuration: Settings): (r: MavenPlugin)
    ensures r.version == p.version && r.configuration == p.configuration
    ensures Find(r.executions, id).Some?
    ensures Find(r.executions, id).value.goals == ExecutionAt(p, id).goals + [goal]
    ensures Find(r.executions, id).value.configuration == ExecutionAt(p, id).configuration + configuration
  {
    var e := ExecutionAt(p, id);
    p.(executions := Upsert(p.executions, id, Execution(e.goals + [goal], e.configuration + configuration)))
  }

  /** `WithExecution` keeps every other execution as it was. */
  lemma WithExecutionKeepsOthers(p: MavenPlugin, id: string, goal: string, configuration: Settings, other: string)
    requires other != id
    ensures Find(WithExecution(p, id, goal, configuration).executions, other) == Find(p.executions, other)
  {
  }

  // ---- Version properties ----

  /** The index of the first version property whose camel-case name is `name`, or `|versions|`. */
  function FirstVersionIndex(versions: seq<Entry<VersionProperty, string>>, name: string): (i: nat)
    ensures i <= |versions|
    ensures i < |versions| ==> versions[i].key.camelCase == name
    ensures forall j :: 0 <= j < i ==> versions[j].key.camelCase != name
  {
    if versions == [] then 0
    else if versions[0].key.camelCase == name then 0
    else 1 + FirstVersionIndex(versions[1..], name)
  }

  /**
   * The value of the first version property whose camel-case name is `name`
   * (the stream `filter` / `findFirst` over the build's version properties).
   */
  function FirstVersion(versions: seq<Entry<VersionProperty, string>>, name: string): (r: Option<string>)
    ensures r.None? <==> forall j :: 0 <= j < |versions| ==> versions[j].key.camelCase != name
    ensures r.Some? ==> exists i :: 0 <= i < |versions| && versions[i].key.camelCase == name
                                 && versions[i].value == r.value
                                 && forall j :: 0 <= j < i ==> versions[j].key.camelCase != name
  {
    var i := FirstVersionIndex(versions, name);
    if i < |versions| then Some(versions[i].value) else None
  }

  /**
   * When the only property with camel-case name `name` is `p`, the first
   * match is `p`'s value.
   */
  lemma {:induction false} FirstVersionOfUnique(versions: seq<Entry<VersionProperty, string>>,
                                                p: VersionProperty, name: string)
    requires p.camelCase == name
    requires forall q :: q in Keys(versions) && q != p ==> q.camelCase != name
    ensures FirstVersion(versions, name) == Find(versions, p)
  {
    if versions != [] {
      assert Keys(versions) == [versions[0].key] + Keys(versions[1..]);
      if versions[0].key.camelCase != name {
        FirstVersionOfUnique(versions[1..], p, name);
        var i := FirstVersionIndex(versions[1..], name);
        assert FirstVersionIndex(versions, name) == 1 + i;
        if i < |versions[1..]| {
          assert versions[1 + i] == versions[1..][i];
        }
      }
    }
  }

  // ---- Ordering ----

  /** Spring's `Ordered.LOWEST_PRECEDENCE`: Java's `Integer.MAX_VALUE`. */
  const LowestPrecedence: int := 0x7fff_ffff

  // ---- The build ----

  class Build {
    /** Which kind of build this is (MavenBuild or GradleBuild). */
    const system: BuildSystem
    /** How the dependency container resolves an id added without coordinates. */
    const itemResolver: map<string, Dependency>

    var dependencies: seq<Entry<string, Dependency>>
    var versions: seq<Entry<VersionProperty, string>>
    var pluginRepositories: seq<Entry<string, MavenRepository>>
    var gradlePlugins: seq<Entry<string, Option<string>>>
    var tasks: seq<Entry<string, Task>>
    var mavenPlugins: seq<Entry<Coordinates, MavenPlugin>>

    function State(): BuildState
      reads this
    {
      BuildState(dependencies, versions, pluginRepositories, gradlePlugins, tasks, mavenPlugins)
    }

    /** Ids are unique, and only the collections of the build's own kind are used. */
    ghost predicate Valid()
      reads this
    {
      && State().Valid()
      && (system == Maven ==> gradlePlugins == [] && tasks == [])
      && (system == Gradle ==> mavenPlugins == [])
    }

    constructor (system: BuildSystem, itemResolver: map<string, Dependency>)
      ensures Valid()
      ensures this.system == system && this.itemResolver == itemResolver
      ensures State() == BuildState([], [], [], [], [], [])
    {
      this.system := system;
      this.itemResolver := itemResolver;
      dependencies, versions, pluginRepositories := [], [], [];
      gradlePlugins, tasks, mavenPlugins := [], [], [];
    }

    /** `dependencies().add(id, dependency)`. */
    method AddDependency(id: string, dependency: Dependency)
      requires Valid()
      modifies this
      ensures Valid()
      ensures State() == old(State()).(dependencies := Upsert(old(dependencies), id, dependency))
    {
      UpsertKeepsUnique(dependencies, id, dependency);
      dependencies := Upsert(dependencies, id, dependency);
    }

    /**
     * `dependencies().add(id)`: adds the dependency the container resolves for
     * `id`, or throws IllegalArgumentException when it resolves none.
     */
    method AddDependencyById(id: string) returns (outcome: Outcome<Error>)
      requires Valid()
      modifies this
      ensures Valid()
      ensures outcome.Fail? <==> id !in itemResolver
      ensures outcome.Fail? ==> outcome.error == IllegalArgument("No such value with id '" + id + "'")
      ensures State() == if id in itemResolver
                         then old(State()).(dependencies := Upsert(old(dependencies), id, itemResolver[id]))
                         else old(State())
    {
      if id in itemResolver {
        AddDependency(id, itemResolver[id]);
        outcome := Pass;
      } else {
        outcome := Fail(IllegalArgument("No such value with id '" + id + "'"));
      }
    }

    /** `properties().version(property, value)`. */
    method SetVersion(property: VersionProperty, value: string)
      requires Valid()
      modifies this
      ensures Valid()
      ensures State() == old(State()).(versions := Upsert(old(versions), property, value))
    {
      UpsertKeepsUnique(versions, property, value);
      versions := Upsert(versions, property, value);
    }

    /** `pluginRepositories().add(repository)`, keyed by the repository's id. */
    method AddPluginRepository(repository: MavenRepository)
      requires Valid()
      modifies this
      ensures Valid()
      ensures State() == old(State()).(pluginRepositories :=
                                       Upsert(old(pluginRepositories), repository.id, repository))
    {
      UpsertKeepsUnique(pluginRepositories, repository.id, repository);
      pluginRepositories := Upsert(pluginRepositories, repository.id, repository);
    }

    /** Gradle `plugins().add(id, plugin -> plugin.setVersion(version))`: get-or-create, then set the version. */
    method AddGradlePlugin(id: string, version: Option<string>)
      requires Valid() && system == Gradle
      modifies this
      ensures Valid()
      ensures State() == old(State()).(gradlePlugins := Upsert(old(gradlePlugins), id, version))
    {
      UpsertKeepsUnique(gradlePlugins, id, version);
      gradlePlugins := Upsert(gradlePlugins, id, version);
    }

    /** Stores the customized task `name` (the end of `tasks().customize(name, ...)`). */
    method PutTask(name: string, task: Task)
      requires Valid() && system == Gradle
      modifies this
      ensures Valid()
      ensures State() == old(State()).(tasks := Upsert(old(tasks), name, task))
    {
      UpsertKeepsUnique(tasks, name, task);
      tasks := Upsert(tasks, name, task);
    }

    /** Stores the customized Maven plugin (the end of `plugins().add(groupId, artifactId, ...)`). */
    method PutMavenPlugin(coordinates: Coordinates, plugin: MavenPlugin)
      requires Valid() && system == Maven
      modifies this
      ensures Valid()
      ensures State() == old(State()).(mavenPlugins := Upsert(old(mavenPlugins), coordinates, plugin))
    {
      UpsertKeepsUnique(mavenPlugins, coordinates, plugin);
      mavenPlugins := Upsert(mavenPlugins, coordinates, plugin);
    }
  }
}
