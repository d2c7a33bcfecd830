/** The objects passed across the simulation boundary between the task and a scripted responder. */
module SimContracts {
  import opened Wrappers
  import opened Values

  /** What a responder is shown at one phase: its label, the keys it may press, the deadline and the task's factors. */
  datatype Observation = Observation(
    phase: string,
    validKeys: seq<string>,
    deadlineS: real,
    taskFactors: map<string, Value>)

  /** What a responder returns: a key or none, a reaction time or none, and free-form metadata. */
  datatype Action = Action(key: Option<string>, rtS: Option<real>, meta: map<string, Value>)
}
