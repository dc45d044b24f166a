/**
 * The static authorization schema (`policy.cedarschema`) and the entities built against it.
 * Evaluating the deployment's own policy set is an arbitrary function of principal, action and resource.
 */
module Cedar {

  datatype EntityType = WorkflowRun | Repository | Silo

  datatype EntityUid = EntityUid(entityType: EntityType, id: string)

  /** Every attribute the service builds is a string. */
  datatype Entity = Entity(uid: EntityUid, attrs: map<string, string>)

  /** What the policy set decides; true for Allow. */
  type Evaluation = (Entity, string, Entity) -> bool

  function RequiredAttributes(entityType: EntityType): set<string> {
    match entityType
    case WorkflowRun =>
      {"repository", "repository_owner", "repository_visibility", "event_name", "ref", "iss"}
    case Repository => {"name", "visibility"}
    case Silo => {}
  }

  function OptionalAttributes(entityType: EntityType): set<string> {
    match entityType
    case WorkflowRun => {"environment"}
    case Repository => {}
    case Silo => {"url"}
  }

  /** The entity has all required attributes of its type and no undeclared one. */
  predicate Conforms(entity: Entity) {
    var entityType := entity.uid.entityType;
    && RequiredAttributes(entityType) <= entity.attrs.Keys
    && entity.attrs.Keys <= RequiredAttributes(entityType) + OptionalAttributes(entityType)
  }

  const REPOSITORY_ACTIONS := {
    "contents:read", "contents:write",
    "pull_requests:read", "pull_requests:write",
    "actions:read", "checks:read",
    "administration:read", "environments:read",
    "administration:write", "environments:write",
    "members:read"
  }

  const SILO_ACTIONS := {"deploy"}

  /** The schema declares `action` for this principal type and this resource type. */
  predicate AppliesTo(action: string, principal: EntityType, resource: EntityType) {
    && principal.WorkflowRun?
    && match resource
       case Repository => action in REPOSITORY_ACTIONS
       case Silo => action in SILO_ACTIONS
       case WorkflowRun => false
  }
}
