/**
 * The managed-version lookup: a bill of materials (BOM), named by its
 * coordinates, resolves to its table of managed versions keyed by
 * `groupId:artifactId`. The resolver is given as the table of the BOMs it
 * can resolve; how it downloads and caches them is not part of this model.
 */
module VersionResolution {
  import opened Wrappers
  import opened Errors

  datatype Bom = Bom(groupId: string, artifactId: string, version: string)

  /** The managed versions of every BOM the resolver can resolve. */
  type Resolver = map<Bom, map<string, string>>

  /** `resolve(groupId, artifactId, version)`: the BOM's table, or the failure to resolve it. */
  function Resolve(resolver: Resolver, groupId: string, artifactId: string, version: string)
    : (r: Result<map<string, string>, Error>)
    ensures r.Success? <==> Bom(groupId, artifactId, version) in resolver
    ensures r.Success? ==> r.value == resolver[Bom(groupId, artifactId, version)]
    ensures r.Failure? ==> r.error == ResolutionUnavailable(groupId, artifactId, version)
  {
    var bom := Bom(groupId, artifactId, version);
    if bom in resolver then Success(resolver[bom]) else Failure(ResolutionUnavailable(groupId, artifactId, version))
  }
}
