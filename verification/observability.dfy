/**
 * The observability customizer: when the build uses a library of the
 * metadata's `Observability` group, it adds Spring Boot's `actuator`,
 * unless it is already there.
 */
module Observability {
  import opened Wrappers
  import opened Errors
  import opened Keyed
  import opened BuildModel

  const ActuatorId := "actuator"

  /** A group of the service metadata's dependencies, with the ids of its members in order. */
  datatype DependencyGroup = DependencyGroup(name: string, ids: seq<string>)

  /** The first group called `name`; with none, `get()` on the empty result throws. */
  function FindGroup(groups: seq<DependencyGroup>, name: string): (r: Result<DependencyGroup, Error>)
    ensures r.Failure? <==> forall i :: 0 <= i < |groups| ==> groups[i].name != name
    ensures r.Failure? ==> r.error == NoSuchElement("No value present")
    ensures r.Success? ==> exists i :: 0 <= i < |groups| && groups[i] == r.value && groups[i].name == name
                                       && forall j :: 0 <= j < i ==> groups[j].name != name
  {
    if groups == [] then Failure(NoSuchElement("No value present"))
    else if groups[0].name == name then Success(groups[0])
    else
      var rest := FindGroup(groups[1..], name);
      assert forall i :: 0 <= i < |groups[1..]| ==> groups[1..][i] == groups[i + 1];
      rest
  }

  /** The build uses some library of the group (the stream `anyMatch` over its dependency ids). */
  predicate UsesGroup(dependencies: seq<Entry<string, Dependency>>, ids: seq<string>) {
    exists id :: id in Keys(dependencies) && id in ids
  }

  /** `actuator` is needed: absent, while some library of the group is present. */
  predicate NeedsActuator(dependencies: seq<Entry<string, Dependency>>, ids: seq<string>) {
    !Has(dependencies, ActuatorId) && UsesGroup(dependencies, ids)
  }

  /**
   * The build after `customize`: `actuator` as the dependency container
   * resolves it, appended exactly when needed; or the container's failure
   * to resolve it.
   */
  function Apply(s: BuildState, ids: seq<string>, itemResolver: map<string, Dependency>)
    : (r: Result<BuildState, Error>)
    requires s.Valid()
    ensures !NeedsActuator(s.dependencies, ids) ==> r == Success(s)
    ensures NeedsActuator(s.dependencies, ids) && ActuatorId !in itemResolver
            ==> r == Failure(IllegalArgument("No such value with id '" + ActuatorId + "'"))
    ensures NeedsActuator(s.dependencies, ids) && ActuatorId in itemResolver ==>
              && r.Success?
              && r.value == s.(dependencies := s.dependencies + [Entry(ActuatorId, itemResolver[ActuatorId])])
    ensures r.Success? ==> r.value.Valid()
  {
    if !NeedsActuator(s.dependencies, ids) then Success(s)
    else if ActuatorId !in itemResolver then Failure(IllegalArgument("No such value with id '" + ActuatorId + "'"))
    else
      UpsertNew(s.dependencies, ActuatorId, itemResolver[ActuatorId]);
      UpsertKeepsUnique(s.dependencies, ActuatorId, itemResolver[ActuatorId]);
      Success(s.(dependencies := Upsert(s.dependencies, ActuatorId, itemResolver[ActuatorId])))
  }

  /** Customizing twice is customizing once: the second run finds `actuator` present. */
  lemma ApplyIdempotent(s: BuildState, ids: seq<string>, itemResolver: map<string, Dependency>)
    requires s.Valid() && Apply(s, ids, itemResolver).Success?
    ensures Apply(Apply(s, ids, itemResolver).value, ids, itemResolver) == Apply(s, ids, itemResolver)
  {
    var r := Apply(s, ids, itemResolver).value;
    if NeedsActuator(s.dependencies, ids) {
      UpsertNew(s.dependencies, ActuatorId, itemResolver[ActuatorId]);
      assert Has(r.dependencies, ActuatorId);
    }
  }

  /**
   * At most one dependency is added, it is `actuator`, no existing dependency
   * changes, and `actuator` is never duplicated.
   */
  lemma ApplyAddsAtMostActuator(s: BuildState, ids: seq<string>, itemResolver: map<string, Dependency>)
    requires s.Valid() && Apply(s, ids, itemResolver).Success?
    ensures var r := Apply(s, ids, itemResolver).value;
            && (Keys(r.dependencies) == Keys(s.dependencies) || Keys(r.dependencies) == Keys(s.dependencies) + [ActuatorId])
            && (forall id :: Has(s.dependencies, id) ==> Find(r.dependencies, id) == Find(s.dependencies, id))
            && Count(r.dependencies, ActuatorId) <= 1
  {
    var r := Apply(s, ids, itemResolver).value;
    CountUnique(r.dependencies, ActuatorId);
    if NeedsActuator(s.dependencies, ids) {
      UpsertNew(s.dependencies, ActuatorId, itemResolver[ActuatorId]);
    }
  }

  class ObservabilityBuildCustomizer {
    const observabilityGroup: DependencyGroup

    /** Selects the metadata's `Observability` group, which the metadata must have. */
    constructor (groups: seq<DependencyGroup>)
      requires FindGroup(groups, "Observability").Success?
      ensures observabilityGroup == FindGroup(groups, "Observability").value
    {
      observabilityGroup := FindGroup(groups, "Observability").value;
    }

    method Customize(build: Build) returns (outcome: Outcome<Error>)
      requires build.Valid()
      modifies build
      ensures build.Valid()
      ensures var r := Apply(old(build.State()), observabilityGroup.ids, build.itemResolver);
              && (outcome.Pass? <==> r.Success?)
              && (r.Success? ==> build.State() == r.value)
              && (r.Failure? ==> outcome.error == r.error && build.State() == old(build.State()))
    {
      var observabilityIds := observabilityGroup.ids;
      if !Has(build.dependencies, ActuatorId) && UsesGroup(build.dependencies, observabilityIds) {
        outcome := build.AddDependencyById(ActuatorId);
        if outcome.Pass? {
          UpsertNew(old(build.dependencies), ActuatorId, build.itemResolver[ActuatorId]);
        }
      } else {
        outcome := Pass;
      }
    }
  }
}
