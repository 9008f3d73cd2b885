/**
 * The version of the Gradle dependency management plugin, taken from the
 * versions Spring Boot's parent BOM manages for the project's platform
 * version.
 */
module DependencyManagementPluginVersion {
  import opened Wrappers
  import opened Errors
  import opened VersionResolution

  const PluginKey := "io.spring.gradle:dependency-management-plugin"

  /** The BOM consulted for a platform version: Spring Boot's parent at exactly that version. */
  function ParentBom(platformVersion: string): Bom {
    Bom("org.springframework.boot", "spring-boot-parent", platformVersion)
  }

  class ManagedDependenciesDependencyManagementPluginVersionResolver {
    const resolver: Resolver

    constructor (resolver: Resolver)
      ensures this.resolver == resolver
    {
      this.resolver := resolver;
    }

    /**
     * The managed version of the plugin, `None` when the BOM manages none
     * (no default is substituted), or the failure to resolve the BOM.
     */
    function ResolveDependencyManagementPluginVersion(platformVersion: string): (r: Result<Option<string>, Error>)
      ensures r.Failure? <==> ParentBom(platformVersion) !in resolver
      ensures r.Failure? ==> r.error == ResolutionUnavailable("org.springframework.boot", "spring-boot-parent",
                                                              platformVersion)
      ensures r.Success? ==> (r.value.Some? <==> PluginKey in resolver[ParentBom(platformVersion)])
      ensures r.Success? && r.value.Some? ==> r.value.value == resolver[ParentBom(platformVersion)][PluginKey]
    {
      match Resolve(resolver, "org.springframework.boot", "spring-boot-parent", platformVersion)
      case Failure(e) => Failure(e)
      case Success(managed) => Success(if PluginKey in managed then Some(managed[PluginKey]) else None)
    }
  }

  /**
   * The answer depends on the platform version and the resolver's table
   * alone: two resolvers that agree on the parent BOM at that version give
   * the same answer.
   */
  lemma DependsOnlyOnParentBom(a: ManagedDependenciesDependencyManagementPluginVersionResolver,
                               b: ManagedDependenciesDependencyManagementPluginVersionResolver,
                               platformVersion: string)
    requires ParentBom(platformVersion) in a.resolver <==> ParentBom(platformVersion) in b.resolver
    requires ParentBom(platformVersion) in a.resolver
             ==> a.resolver[ParentBom(platformVersion)] == b.resolver[ParentBom(platformVersion)]
    ensures a.ResolveDependencyManagementPluginVersion(platformVersion)
            == b.ResolveDependencyManagementPluginVersion(platformVersion)
  {
  }
}
