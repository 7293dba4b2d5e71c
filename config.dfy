/** Well-known queue names under which the actors find each other in the directory.
    The configuration module itself is not part of this model; the names below are
    placeholders that are pairwise distinct, which is all the proofs rely on, except
    that the resource manager's queue name is taken to be the resource manager's own
    inbox name, so that a forwarded request reaches that actor. */
module Config {
  const AccessControlQueue: string := "access_control"
  const ResourceManagerQueue: string := "resource_manager_base_queue"
  const PlannerQueue: string := "planner"
  const ControlSystemQueue: string := "control_system"
  const SafetyBlockQueue: string := "safety_block"
}
