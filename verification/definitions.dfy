/**
  The data contracts the domain consumes: procedure, disease and equipment
  definitions. In the game these are asset objects compared by reference;
  here every definition carries a stable identifier and identity is
  identifier equality.
*/
module Definitions {
  import opened Wrappers

  datatype ProcedureKind = Test | Treatment

  datatype ProcId = ProcId(n: nat)
  datatype ToolId = ToolId(n: nat)
  datatype EquipmentId = EquipmentId(n: nat)

  /** A test or treatment. The duration is passed through to the scheduler untouched. */
  datatype ProcedureDef = ProcedureDef(
    id: ProcId,
    name: string,
    kind: ProcedureKind,
    durationSeconds: real,
    requiredTool: Option<ToolId>,
    requiredEquipment: Option<EquipmentId>)

  /**
    A disease: its test and treatment arrays may themselves be missing, and
    may hold missing or repeated entries.
  */
  datatype DiseaseDef = DiseaseDef(
    name: string,
    tests: Option<seq<Option<ProcId>>>,
    treatments: Option<seq<Option<ProcId>>>,
    maxWaitSeconds: real)
}
