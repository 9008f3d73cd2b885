# Spring Native build customizers of start.spring.io, modelled in Dafny

This project models the build customizers that start.spring.io (Spring Initializr) applies to a
generated project when Spring Native is requested, with the lookups they rely on. It proves what each
customizer does to the project's build.

The build is an in-memory descriptor. It keeps dependencies by id, version properties, plugin
repositories, Maven plugins and Gradle plugins and tasks, each in insertion order. Adding an id that
is already present replaces or customizes the existing entry instead of duplicating it.

- **General Spring Native customizer.** It lifts the literal version of the `native` dependency into
  the `spring-native.version` property and re-points the dependency at it. When the metadata names a
  repository for it, the customizer also registers that repository as a plugin repository.
- **Maven customizer.** It adds the Spring AOT plugin and the native `image` configuration of the
  Spring Boot plugin. When `data-jpa` is used, it also adds the Hibernate enhancement plugin.
- **Gradle customizer.** It applies the AOT plugin at the Spring Native version the build exposes and
  configures `bootBuildImage`.
- **GraalVM Gradle customizer.** It applies the native build tools plugin and, with `data-jpa`, the
  Hibernate plugin and its `hibernate` task. It reads the Hibernate version from a lazy supplier.
- **Observability customizer.** It adds `actuator` when an observability library is used.
- **Lookups.** The Hibernate version and the native Maven repository, the beans the configuration
  contributes per build system, the version of the dependency management plugin, and the model of the
  Spring Native help section.

Layout:
- `keyed.dfy` holds the insertion-ordered keyed collections.
- `build.dfy` holds the build, as the class `Build` and its abstract value `BuildState`.
- Each customizer has its own file. It holds a pure `Apply` function on `BuildState`, with the
  customizer's properties in its contract or in lemmas beside it, and a class whose `Customize`
  method changes a `Build` in place. The method is proved to leave exactly `Apply` of the state it
  started from. The Maven customizer's steps are functions on the list of Maven plugins alone.

Exceptions are modelled as `Result` and `Outcome` values, and Java's `null` as `Option`.

## Model

| member | source | states |
|---|---|---|
| Keyed.Find | start-site/src/main/java/io/spring/start/site/extension/dependency/springnative/SpringNativeBuildCustomizer.java:41 | finds a value stored under an id exactly when the id is among the keys |
| Keyed.FindIsStored | start-site/src/main/java/io/spring/start/site/extension/dependency/springnative/SpringNativeBuildCustomizer.java:41 | the value found under an id is that of an entry stored with that id |
| Keyed.Upsert | start-site/src/main/java/io/spring/start/site/extension/dependency/springnative/SpringNativeBuildCustomizer.java:48-49 | adding under an id makes it map to the new value, leaves every other id as it was, and only appends the id when it was new (adding `native` again replaces it) |
| Keyed.UpsertKeepsUnique | start-site/src/main/java/io/spring/start/site/extension/dependency/springnative/SpringNativeBuildCustomizer.java:48-49 | adding never makes an id occur twice |
| Keyed.UpsertNew | start-site/src/main/java/io/spring/start/site/extension/dependency/observability/ObservabilityBuildCustomizer.java:47 | adding a new id appends its entry at the end |
| Keyed.CountUnique | start-site/src/main/java/io/spring/start/site/extension/dependency/springnative/SpringNativeBuildCustomizer.java:48-49 | in a collection with distinct ids, an id occurs exactly once when present and never otherwise |
| BuildModel.WithExecution | start-site/src/main/java/io/spring/start/site/extension/dependency/springnative/SpringNativeMavenBuildCustomizer.java:36-37 | a plugin execution is fetched or created, the goal appended to its goals and the configuration to its configuration; the plugin's version and configuration are kept |
| BuildModel.WithExecutionKeepsOthers | start-site/src/main/java/io/spring/start/site/extension/dependency/springnative/SpringNativeMavenBuildCustomizer.java:36-37 | the other executions keep their values |
| BuildModel.FirstVersionIndex | start-site/src/main/java/io/spring/start/site/extension/dependency/springnative/SpringNativeGradleBuildCustomizer.java:36-38 | the position of the first version property whose camel-case name matches, no earlier one matching |
| BuildModel.FirstVersion | start-site/src/main/java/io/spring/start/site/extension/dependency/springnative/SpringNativeGradleBuildCustomizer.java:36-38 | the first matching property's value; absent exactly when no property matches |
| BuildModel.FirstVersionOfUnique | start-site/src/main/java/io/spring/start/site/extension/dependency/springnative/SpringNativeGradleBuildCustomizer.java:36-38 | when only one property has the camel-case name, the lookup yields that property's value |
| BuildModel.Build.AddDependency | start-site/src/main/java/io/spring/start/site/extension/dependency/springnative/SpringNativeBuildCustomizer.java:48-49 | the dependency is stored under its id, replacing any previous one; nothing else changes |
| BuildModel.Build.AddDependencyById | start-site/src/main/java/io/spring/start/site/extension/dependency/observability/ObservabilityBuildCustomizer.java:47 | adds the dependency the container resolves for the id; fails with an illegal-argument error, changing nothing, exactly when the id resolves to nothing |
| BuildModel.Build.SetVersion | start-site/src/main/java/io/spring/start/site/extension/dependency/springnative/SpringNativeBuildCustomizer.java:45 | the version property is set to the value, replacing any previous value |
| BuildModel.Build.AddPluginRepository | start-site/src/main/java/io/spring/start/site/extension/dependency/springnative/SpringNativeBuildCustomizer.java:53 | the repository is stored under its id |
| BuildModel.Build.AddGradlePlugin | start-site/src/main/java/io/spring/start/site/extension/dependency/springnative/SpringNativeGradleBuildCustomizer.java:41 | the Gradle plugin is fetched or created and its version set |
| BuildModel.Build.PutTask | start-site/src/main/java/io/spring/start/site/extension/dependency/springnative/SpringNativeGradleBuildCustomizer.java:44-47 | the customized task is stored under its name |
| BuildModel.Build.PutMavenPlugin | start-site/src/main/java/io/spring/start/site/extension/dependency/springnative/SpringNativeMavenBuildCustomizer.java:34-44 | the customized Maven plugin is stored under its coordinates |
| SpringNativeBuild.Apply | start-site/src/main/java/io/spring/start/site/extension/dependency/springnative/SpringNativeBuildCustomizer.java:40-56 | `spring-native.version` holds the literal version `native` had and no other property changes; `native` now refers to the property with group and artifact unchanged; it was replaced, not added (one `native`, same ids, other dependencies unchanged); a plugin repository is registered exactly when one was given; plugins and tasks are untouched |
| SpringNativeBuild.ApplyToNativeOnly | start-site/src/main/java/io/spring/start/site/extension/dependency/springnative/SpringNativeBuildCustomizer.java:40-56 | on a build holding only `native`, the one version property is `spring-native.version` at its version, the dependency refers to it, and the plugin repository ids are exactly the given repository's id or none |
| SpringNativeBuild.SpringNativeBuildCustomizer.constructor | start-site/src/main/java/io/spring/start/site/extension/dependency/springnative/SpringNativeBuildCustomizer.java:35-37 | keeps the repository to register, or none |
| SpringNativeBuild.SpringNativeBuildCustomizer.Customize | start-site/src/main/java/io/spring/start/site/extension/dependency/springnative/SpringNativeBuildCustomizer.java:40-56 | the build afterwards is `Apply` of the build before, and its ids stay distinct |
| SpringNativeMavenBuild.CustomizeAot | start-site/src/main/java/io/spring/start/site/extension/dependency/springnative/SpringNativeMavenBuildCustomizer.java:34-37 | the AOT plugin gets version `${spring-native.version}`; the goals of `test-generate` and of `generate` become exactly their previous goals (none for a new execution) followed by the goal of their name, their configuration kept; every other execution and the configuration are kept |
| SpringNativeMavenBuild.CustomizeBoot | start-site/src/main/java/io/spring/start/site/extension/dependency/springnative/SpringNativeMavenBuildCustomizer.java:40-44 | the configuration becomes exactly the previous configuration followed by the `image` block: `builder` = `paketobuildpacks/builder:tiny` and `env`.`BP_BOOT_NATIVE_IMAGE` = `true`; version and executions are kept |
| SpringNativeMavenBuild.CustomizeHibernateEnhance | start-site/src/main/java/io/spring/start/site/extension/dependency/springnative/SpringNativeMavenBuildCustomizer.java:59-63 | the enhancement plugin gets version `${hibernate.version}`; the `enhance` execution becomes its previous goals followed by `enhance`, and its previous configuration followed by the five settings in order; every other execution and the configuration are kept |
| SpringNativeMavenBuild.AddAotPlugin | start-site/src/main/java/io/spring/start/site/extension/dependency/springnative/SpringNativeMavenBuildCustomizer.java:34-37 | the plugin at the AOT coordinates becomes the customized fetched-or-new plugin; no other plugin changes; ids stay distinct |
| SpringNativeMavenBuild.AddBootPlugin | start-site/src/main/java/io/spring/start/site/extension/dependency/springnative/SpringNativeMavenBuildCustomizer.java:40-44 | the plugin at the Spring Boot coordinates becomes the customized fetched-or-new plugin; no other plugin changes; ids stay distinct |
| SpringNativeMavenBuild.ApplyHibernateEnhance | start-site/src/main/java/io/spring/start/site/extension/dependency/springnative/SpringNativeMavenBuildCustomizer.java:56-64 | the plugin at the enhancement coordinates becomes the customized fetched-or-new plugin; no other plugin changes; ids stay distinct |
| SpringNativeMavenBuild.CustomizePlugins | start-site/src/main/java/io/spring/start/site/extension/dependency/springnative/SpringNativeMavenBuildCustomizer.java:32-49 | the plugins after `customize` keep distinct coordinates |
| SpringNativeMavenBuild.Apply | start-site/src/main/java/io/spring/start/site/extension/dependency/springnative/SpringNativeMavenBuildCustomizer.java:32-49 | only the Maven plugins change; dependencies and properties are only read; ids stay distinct |
| SpringNativeMavenBuild.ApplyConfiguresAotAndBoot | start-site/src/main/java/io/spring/start/site/extension/dependency/springnative/SpringNativeMavenBuildCustomizer.java:32-44 | the AOT plugin is present with its version and both goals, and the Spring Boot plugin with the `image` block, with or without `data-jpa` |
| SpringNativeMavenBuild.ApplyHibernateEnhanceIffJpa | start-site/src/main/java/io/spring/start/site/extension/dependency/springnative/SpringNativeMavenBuildCustomizer.java:46-64 | the enhancement plugin is present exactly when `data-jpa` is (or it already was); with `data-jpa` it is configured, without it it is untouched |
| SpringNativeMavenBuild.ApplyKeepsOtherPlugins | start-site/src/main/java/io/spring/start/site/extension/dependency/springnative/SpringNativeMavenBuildCustomizer.java:32-49 | every plugin other than these three is unchanged |
| SpringNativeMavenBuild.ApplyRemovesNoPlugin | start-site/src/main/java/io/spring/start/site/extension/dependency/springnative/SpringNativeMavenBuildCustomizer.java:32-49 | no plugin is removed |
| SpringNativeMavenBuild.ApplyToNoPlugins | start-site/src/main/java/io/spring/start/site/extension/dependency/springnative/SpringNativeMavenBuildCustomizer.java:32-64 | on a build without plugins, the plugins are exactly: the AOT plugin with `test-generate` then `generate`; the Spring Boot plugin with only the `image` block; with `data-jpa`, the enhancement plugin with its single `enhance` execution and exactly its five settings |
| SpringNativeMavenBuild.CustomizeNewAot | start-site/src/main/java/io/spring/start/site/extension/dependency/springnative/SpringNativeMavenBuildCustomizer.java:34-37 | a new AOT plugin has exactly its version and the two single-goal executions, in order |
| SpringNativeMavenBuild.CustomizeNewHibernateEnhance | start-site/src/main/java/io/spring/start/site/extension/dependency/springnative/SpringNativeMavenBuildCustomizer.java:57-63 | a new enhancement plugin has exactly its version and one `enhance` execution with the five settings |
| SpringNativeMavenBuild.AddAotPluginToNone | start-site/src/main/java/io/spring/start/site/extension/dependency/springnative/SpringNativeMavenBuildCustomizer.java:34-37 | on a build without plugins the AOT plugin is the only one |
| SpringNativeMavenBuild.AddBootPluginAfterAot | start-site/src/main/java/io/spring/start/site/extension/dependency/springnative/SpringNativeMavenBuildCustomizer.java:40-44 | the Spring Boot plugin comes second, after the AOT plugin |
| SpringNativeMavenBuild.AddHibernateEnhanceAfterBoot | start-site/src/main/java/io/spring/start/site/extension/dependency/springnative/SpringNativeMavenBuildCustomizer.java:56-64 | the enhancement plugin comes third |
| SpringNativeMavenBuild.SpringNativeMavenBuildCustomizer.Customize | start-site/src/main/java/io/spring/start/site/extension/dependency/springnative/SpringNativeMavenBuildCustomizer.java:32-49 | the build afterwards is `Apply` of the build before |
| SpringNativeMavenBuild.SpringNativeMavenBuildCustomizer.GetOrder | start-site/src/main/java/io/spring/start/site/extension/dependency/springnative/SpringNativeMavenBuildCustomizer.java:51-54 | ten places ahead of the lowest precedence (`Integer.MAX_VALUE`) |
| SpringNativeMavenBuild.SpringNativeMavenBuildCustomizer.ConfigureHibernateEnhancePlugin | start-site/src/main/java/io/spring/start/site/extension/dependency/springnative/SpringNativeMavenBuildCustomizer.java:56-64 | the plugins afterwards are `ApplyHibernateEnhance` of the plugins before; nothing else changes |
| SpringNativeGradleBuild.CustomizeBootBuildImage | start-site/src/main/java/io/spring/start/site/extension/dependency/springnative/SpringNativeGradleBuildCustomizer.java:44-47 | `bootBuildImage` gets `builder` = `'paketobuildpacks/builder:tiny'` and `environment` = `['BP_BOOT_NATIVE_IMAGE': 'true']`, keeping its other attributes and blocks |
| SpringNativeGradleBuild.AddAotPlugin | start-site/src/main/java/io/spring/start/site/extension/dependency/springnative/SpringNativeGradleBuildCustomizer.java:36-41 | the AOT plugin is present at the first `springNativeVersion` property's value, or without version when there is none; no other plugin changes |
| SpringNativeGradleBuild.ConfigureBootBuildImage | start-site/src/main/java/io/spring/start/site/extension/dependency/springnative/SpringNativeGradleBuildCustomizer.java:44-47 | the `bootBuildImage` task is customized; no other task changes |
| SpringNativeGradleBuild.Apply | start-site/src/main/java/io/spring/start/site/extension/dependency/springnative/SpringNativeGradleBuildCustomizer.java:35-48 | the AOT plugin is always added at the first matching property's value (if any); `bootBuildImage` gets both attributes and keeps its others; other plugins and tasks are unchanged; dependencies and properties are not modified |
| SpringNativeGradleBuild.AotVersionIsNativeVersion | start-site/src/main/java/io/spring/start/site/extension/dependency/springnative/SpringNativeGradleBuildCustomizer.java:36-41 | after the general customizer, with no other property named `springNativeVersion`, the AOT plugin gets exactly the version `native` had |
| SpringNativeGradleBuild.SpringNativeGradleBuildCustomizer.Customize | start-site/src/main/java/io/spring/start/site/extension/dependency/springnative/SpringNativeGradleBuildCustomizer.java:35-48 | the build afterwards is `Apply` of the build before |
| SpringNativeGradleBuild.SpringNativeGradleBuildCustomizer.GetOrder | start-site/src/main/java/io/spring/start/site/extension/dependency/springnative/SpringNativeGradleBuildCustomizer.java:51-53 | ten places ahead of the lowest precedence |
| GraalVmGradleBuild.SetEnhancement | start-site/src/main/java/io/spring/start/site/extension/dependency/graalvm/GraalVmGradleBuildCustomizer.java:63-65 | `lazyInitialization`, `dirtyTracking` and `associationManagement` are each set to `true`; every other attribute is kept |
| GraalVmGradleBuild.CustomizeHibernateTask | start-site/src/main/java/io/spring/start/site/extension/dependency/graalvm/GraalVmGradleBuildCustomizer.java:62-66 | the task's `enhancement` block (fetched or created) gets the three attributes set to `true`, keeping its other attributes and its nested blocks; the task's own attributes and other blocks are kept |
| GraalVmGradleBuild.AddNativeBuildToolsPlugin | start-site/src/main/java/io/spring/start/site/extension/dependency/graalvm/GraalVmGradleBuildCustomizer.java:44-46 | the native build tools plugin carries the version when there is one; with none the build is unchanged |
| GraalVmGradleBuild.AddHibernatePlugin | start-site/src/main/java/io/spring/start/site/extension/dependency/graalvm/GraalVmGradleBuildCustomizer.java:51-52 | `org.hibernate.orm` carries the supplied version's text; no other plugin changes |
| GraalVmGradleBuild.ApplyHibernateEnhance | start-site/src/main/java/io/spring/start/site/extension/dependency/graalvm/GraalVmGradleBuildCustomizer.java:61-67 | the `hibernate` task is customized; no other task changes |
| GraalVmGradleBuild.Apply | start-site/src/main/java/io/spring/start/site/extension/dependency/graalvm/GraalVmGradleBuildCustomizer.java:43-55 | fails exactly when `data-jpa` is present and the supplier fails, with the supplier's error; the native build tools plugin is added exactly when its version is known; with `data-jpa`, `org.hibernate.orm` at the supplied version and the `hibernate` task's three attributes; without it, neither; dependencies are never modified |
| GraalVmGradleBuild.ApplyToNoPluginsWithJpa | start-site/src/main/java/io/spring/start/site/extension/dependency/graalvm/GraalVmGradleBuildCustomizer.java:43-67 | on a build without plugins or tasks, with `data-jpa`: plugins exactly native build tools then Hibernate; the one task `hibernate` has a single `enhancement` block with exactly the three attributes in order |
| GraalVmGradleBuild.AddHibernatePluginAfterNativeBuildTools | start-site/src/main/java/io/spring/start/site/extension/dependency/graalvm/GraalVmGradleBuildCustomizer.java:44-52 | the Hibernate plugin comes after the native build tools plugin |
| GraalVmGradleBuild.ApplyHibernateEnhanceOnNoTask | start-site/src/main/java/io/spring/start/site/extension/dependency/graalvm/GraalVmGradleBuildCustomizer.java:61-67 | on a build without tasks, `hibernate` is the one task, holding only the `enhancement` block |
| GraalVmGradleBuild.CustomizeNewHibernateTask | start-site/src/main/java/io/spring/start/site/extension/dependency/graalvm/GraalVmGradleBuildCustomizer.java:62-66 | a new `hibernate` task holds exactly the three attributes in order |
| GraalVmGradleBuild.SetEnhancementOnNone | start-site/src/main/java/io/spring/start/site/extension/dependency/graalvm/GraalVmGradleBuildCustomizer.java:63-65 | on a block without attributes, exactly the three attributes in order |
| GraalVmGradleBuild.GraalVmGradleBuildCustomizer.constructor | start-site/src/main/java/io/spring/start/site/extension/dependency/graalvm/GraalVmGradleBuildCustomizer.java:37-40 | keeps the native build tools version and the supplier |
| GraalVmGradleBuild.GraalVmGradleBuildCustomizer.Customize | start-site/src/main/java/io/spring/start/site/extension/dependency/graalvm/GraalVmGradleBuildCustomizer.java:43-55 | the supplier is asked exactly once with `data-jpa` and never without; the build and outcome are `Apply` of the build before |
| GraalVmGradleBuild.GraalVmGradleBuildCustomizer.CustomizeSpringBootPlugin | start-site/src/main/java/io/spring/start/site/extension/dependency/graalvm/GraalVmGradleBuildCustomizer.java:57-59 | the hook leaves the build unchanged |
| GraalVmGradleBuild.GraalVmGradleBuildCustomizer.ConfigureHibernateEnhancePlugin | start-site/src/main/java/io/spring/start/site/extension/dependency/graalvm/GraalVmGradleBuildCustomizer.java:61-67 | the build afterwards is `ApplyHibernateEnhance` of the build before |
| Observability.FindGroup | start-site/src/main/java/io/spring/start/site/extension/dependency/observability/ObservabilityBuildCustomizer.java:38-39 | the first group with the name; fails exactly when no group has it |
| Observability.Apply | start-site/src/main/java/io/spring/start/site/extension/dependency/observability/ObservabilityBuildCustomizer.java:43-49 | `actuator` is appended exactly when it is absent and some dependency belongs to the group; otherwise the build is unchanged; the container's failure to resolve `actuator` is the only error |
| Observability.ApplyIdempotent | start-site/src/main/java/io/spring/start/site/extension/dependency/observability/ObservabilityBuildCustomizer.java:46-48 | customizing twice gives the same build as customizing once |
| Observability.ApplyAddsAtMostActuator | start-site/src/main/java/io/spring/start/site/extension/dependency/observability/ObservabilityBuildCustomizer.java:46-47 | at most one dependency is added, `actuator`, at the end; existing dependencies are unchanged; `actuator` occurs at most once |
| Observability.ObservabilityBuildCustomizer.constructor | start-site/src/main/java/io/spring/start/site/extension/dependency/observability/ObservabilityBuildCustomizer.java:37-40 | keeps the first group named `Observability` |
| Observability.ObservabilityBuildCustomizer.Customize | start-site/src/main/java/io/spring/start/site/extension/dependency/observability/ObservabilityBuildCustomizer.java:43-49 | the build and outcome are those of `Apply` on the build before; a failure leaves the build unchanged |
| VersionResolution.Resolve | start-site/src/main/java/io/spring/start/site/extension/dependency/springnative/SpringNativeProjectGenerationConfiguration.java:80-81 | a BOM's managed versions, or a resolution failure naming its coordinates |
| SpringNativeConfiguration.HibernateVersion | start-site/src/main/java/io/spring/start/site/extension/dependency/springnative/SpringNativeProjectGenerationConfiguration.java:79-88 | succeeds exactly when Spring Boot's dependencies BOM at the Boot version manages `org.hibernate:hibernate-core`, giving a literal whose text is that version; otherwise fails with the resolution error or the error naming the Spring Boot version |
| SpringNativeConfiguration.HibernateVersionSupplier.constructor | start-site/src/main/java/io/spring/start/site/extension/dependency/springnative/SpringNativeProjectGenerationConfiguration.java:77-79 | building the supplier consults nothing: no invocation yet |
| SpringNativeConfiguration.HibernateVersionSupplier.Get | start-site/src/main/java/io/spring/start/site/extension/dependency/springnative/SpringNativeProjectGenerationConfiguration.java:79-88 | each call counts one invocation and yields `HibernateVersion` |
| SpringNativeConfiguration.ResolvedRepository | start-site/src/main/java/io/spring/start/site/extension/dependency/springnative/SpringNativeProjectGenerationConfiguration.java:97 | the repository of the first mapping whose range holds the platform version when that mapping names one, and the dependency's own repository when it names none or no mapping matches |
| SpringNativeConfiguration.DetermineNativeMavenRepository | start-site/src/main/java/io/spring/start/site/extension/dependency/springnative/SpringNativeProjectGenerationConfiguration.java:91-104 | fails without a `native` dependency; none when the resolved dependency names no repository; else that id with url, name and snapshots copied from the environment; a null dereference when the environment lacks it |
| SpringNativeConfiguration.RegistersNativeRepository | start-site/src/main/java/io/spring/start/site/extension/dependency/springnative/SpringNativeProjectGenerationConfiguration.java:56-61 | the general customizer built from it registers, on a build without plugin repositories, exactly the repository the resolved `native` dependency names, or none |
| SpringNativeConfiguration.Beans | start-site/src/main/java/io/spring/start/site/extension/dependency/springnative/SpringNativeProjectGenerationConfiguration.java:46-75 | nothing without `native`; with it, the help and general customizers, the Maven customizer only for Maven and the Gradle customizer only for Gradle |
| SpringNativeConfiguration.OneBuildSystemCustomizer | start-site/src/main/java/io/spring/start/site/extension/dependency/springnative/SpringNativeProjectGenerationConfiguration.java:63-75 | with `native` requested, exactly one build-system customizer takes part |
| DependencyManagementPluginVersion.ManagedDependenciesDependencyManagementPluginVersionResolver.constructor | start-site/src/main/java/io/spring/start/site/build/gradle/ManagedDependenciesDependencyManagementPluginVersionResolver.java:35-37 | keeps the resolver |
| DependencyManagementPluginVersion.ManagedDependenciesDependencyManagementPluginVersionResolver.ResolveDependencyManagementPluginVersion | start-site/src/main/java/io/spring/start/site/build/gradle/ManagedDependenciesDependencyManagementPluginVersionResolver.java:40-44 | reads `spring-boot-parent` at exactly the platform version; the plugin's managed version, absent exactly when the BOM has no entry (no default); fails exactly when the BOM cannot be resolved |
| DependencyManagementPluginVersion.DependsOnlyOnParentBom | start-site/src/main/java/io/spring/start/site/build/gradle/ManagedDependenciesDependencyManagementPluginVersionResolver.java:40-44 | resolvers that agree on that BOM give the same answer |
| SpringNativeHelp.HelpModel | start-site/src/main/java/io/spring/start/site/extension/dependency/springnative/SpringNativeHelpDocumentCustomizer.java:49-55 | exactly the keys `version` and `buildImageCommand`; `version` is the first `springNativeVersion` property's value, or `current` when there is none; the command is `./mvnw spring-boot:build-image` for Maven and `./gradlew bootBuildImage` otherwise |
| SpringNativeHelp.HelpShowsNativeVersion | start-site/src/main/java/io/spring/start/site/extension/dependency/springnative/SpringNativeHelpDocumentCustomizer.java:49-51 | after the general customizer, with no other property named `springNativeVersion`, the help shows the version `native` had |
| SpringNativeHelp.HelpDocument.AddSection | start-site/src/main/java/io/spring/start/site/extension/dependency/springnative/SpringNativeHelpDocumentCustomizer.java:57 | the section is appended |
| SpringNativeHelp.SpringNativeHelpDocumentCustomizer.constructor | start-site/src/main/java/io/spring/start/site/extension/dependency/springnative/SpringNativeHelpDocumentCustomizer.java:42-45 | keeps the build |
| SpringNativeHelp.SpringNativeHelpDocumentCustomizer.Customize | start-site/src/main/java/io/spring/start/site/extension/dependency/springnative/SpringNativeHelpDocumentCustomizer.java:48-58 | exactly one section, `spring-native`, is appended with the model of the build; the build is only read |

## Left out

- The descriptor classes of the generator library (`Build`, `MavenBuild`, `GradleBuild`, their containers and builders) are not part of this model. They are modelled by the rules the customizers rely on:
  - adding by id replaces in place, or appends a new id;
  - a plugin or task is fetched or created, then customized;
  - a task attribute is set and a nested block is fetched or created;
  - a Maven execution is fetched or created and its goal appended;
  - Maven configuration `add` appends a setting.
- Version properties are kept in insertion order. The order the library's property container really uses is not part of this model.
- BuildModel.BuildState.Valid: version properties are keyed by the pair of their standard and camel-case names, not by the standard name the library keys them by. A state holding `spring-native.version` under another camel-case name is valid here, and `SpringNativeBuild.Apply` then leaves two properties named `spring-native.version`.
- The library's camel-case naming of version properties is not computed. Each `VersionProperty` carries both its standard and its camel-case name.
- SpringNativeBuild.SpringNativeBuildCustomizer.Customize: requires a `native` dependency with a literal version. Without one, the Java code dereferences null. With a property reference instead, it stores a null property value. Neither failure is modelled, and the same precondition is on `SpringNativeBuild.Apply`.
- Observability.ObservabilityBuildCustomizer.constructor: requires the metadata to have an `Observability` group. The failing lookup itself is modelled by `Observability.FindGroup`.
- `NativeBuildtoolsVersionResolver` is not part of this model. The native build tools version is passed to the GraalVM customizer's constructor as an optional value.
- GraalVmGradleBuild.Apply: when the Hibernate supplier fails, the build keeps what the earlier steps did. Whether the library has already created an empty `org.hibernate.orm` plugin entry before the exception is not modelled.
- Subclasses overriding the Spring Boot plugin hook of the GraalVM customizer are not modelled; only the default, empty hook is.
- `SpringNativeGradleBuildCustomizer.java` has no constructor and no Hibernate logic, although `SpringNativeProjectGenerationConfiguration.java:73-74` passes it a Hibernate version supplier. The customizer is modelled as its own file defines it. The lazy supplier behaviour is modelled on the GraalVM customizer, which has it.
- The dependency management plugin version resolver is modelled with the one-argument constructor its file defines. A fallback-version constructor is not part of this model.
- The version resolver's download, caching and concurrency are not modelled. It is a given table of BOMs, and a BOM it cannot resolve is a `ResolutionUnavailable` error.
- `Dependency.resolve` of the service metadata is reduced to repository selection. A mapping's version range is a given set of platform versions, and the other overridden attributes are not modelled.
- Repository URLs are plain strings.
- Spring wiring is modelled only as the set of contributed beans. That covers bean methods, `@ConditionalOnRequestedDependency` and `@ConditionalOnBuildSystem`. The order in which the customizers run is not modelled beyond the constant each `GetOrder` returns. Creating the general customizer's bean can fail through `DetermineNativeMavenRepository`; that failure is modelled there.
- Rendering is not modelled: not the Mustache help section, and not the pom or Gradle script text. The Geode help customizer and the metadata update strategy, which fetches versions over HTTP, are out of scope.
- Dependencies are reduced to group, artifact and version. Scope, type, classifier and exclusions are not modelled.
- The supplier's invocation counter is ghost state; Java keeps no such counter.
