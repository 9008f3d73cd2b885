/**
 * The Spring Native section of the generated HELP document: it tells which
 * Spring Native version the project uses and how to build its native image.
 */
module SpringNativeHelp {
  import opened Wrappers
  import opened Keyed
  import opened BuildModel
  import SpringNativeBuild

  /** A section of the help document: the template it renders and the model it renders with. */
  datatype Section = Section(templateName: string, model: map<string, string>)

  /** The help document, its sections in order. Rendering is not part of this model. */
  class HelpDocument {
    var sections: seq<Section>

    constructor ()
      ensures sections == []
    {
      sections := [];
    }

    method AddSection(section: Section)
      modifies this
      ensures sections == old(sections) + [section]
    {
      sections := sections + [section];
    }
  }

  const MavenBuildImageCommand := "./mvnw spring-boot:build-image"
  const GradleBuildImageCommand := "./gradlew bootBuildImage"

  /** The model of the `spring-native` section for a build. */
  function HelpModel(s: BuildState, system: BuildSystem): (model: map<string, string>)
    ensures model.Keys == {"version", "buildImageCommand"}
    // the first `springNativeVersion` property's value, or `current`
    ensures FirstVersion(s.versions, "springNativeVersion").Some?
            ==> model["version"] == FirstVersion(s.versions, "springNativeVersion").value
    ensures (forall j :: 0 <= j < |s.versions| ==> s.versions[j].key.camelCase != "springNativeVersion")
            ==> model["version"] == "current"
    ensures model["buildImageCommand"] == if system == Maven then MavenBuildImageCommand else GradleBuildImageCommand
  {
    map["version" := FirstVersion(s.versions, "springNativeVersion").GetOr("current"),
        "buildImageCommand" := if system == Maven then MavenBuildImageCommand else GradleBuildImageCommand]
  }

  /**
   * After the general Spring Native customizer, on a build where no other
   * property is named `springNativeVersion` in camel case, the help shows
   * the version the `native` dependency had.
   */
  lemma HelpShowsNativeVersion(s: BuildState, pluginRepository: Option<MavenRepository>, system: BuildSystem)
    requires s.Valid() && SpringNativeBuild.HasLiteralNative(s.dependencies)
    requires forall q :: q in Keys(s.versions) && q != SpringNativeBuild.SpringNativeVersion
                         ==> q.camelCase != "springNativeVersion"
    ensures HelpModel(SpringNativeBuild.Apply(s, pluginRepository), system)["version"]
            == SpringNativeBuild.NativeVersion(s.dependencies)
  {
    var r := SpringNativeBuild.Apply(s, pluginRepository);
    forall q | q in Keys(r.versions) && q != SpringNativeBuild.SpringNativeVersion
      ensures q.camelCase != "springNativeVersion"
    {
      assert Find(r.versions, q) == Find(s.versions, q);
    }
    FirstVersionOfUnique(r.versions, SpringNativeBuild.SpringNativeVersion, "springNativeVersion");
  }

  class SpringNativeHelpDocumentCustomizer {
    /** The build the help describes; it is only read. */
    const build: Build

    constructor (build: Build)
      ensures this.build == build
    {
      this.build := build;
    }

    /** Appends exactly one section, `spring-native`, with the model of the build as it is. */
    method Customize(document: HelpDocument)
      modifies document
      ensures document.sections == old(document.sections) + [Section("spring-native", HelpModel(build.State(), build.system))]
    {
      var springNativeVersion := FirstVersion(build.versions, "springNativeVersion").GetOr("current");
      var model := map["version" := springNativeVersion];
      model := model["buildImageCommand" := if build.system == Maven then MavenBuildImageCommand
                                            else GradleBuildImageCommand];
      document.AddSection(Section("spring-native", model));
    }
  }
}
