/** The blueprint value objects a tenant registers. They carry no behaviour;
    the ECS/Fargate blueprint and the RDS capacity and performance types are
    opaque here (their definitions are not part of this model). */
module Blueprints {

  /** A member of the caller-defined service-type enum that keys both mappings. */
  datatype ServiceType = ServiceType(value: string)

  datatype EcsFargateBlueprint = EcsFargateBlueprint(name: string)

  datatype RdsCapacity = RdsCapacity(name: string)

  datatype RdsPerformance = RdsPerformance(name: string)

  /** src/iden_q_auto_platform/models/blueprints/database_blueprint.py */
  datatype DatabaseBlueprint = DatabaseBlueprint(capacity: RdsCapacity, performance: RdsPerformance)

  type EcsFargateBlueprintMap = map<ServiceType, EcsFargateBlueprint>

  type RdsBlueprintMap = map<ServiceType, DatabaseBlueprint>
}
