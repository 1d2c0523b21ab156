/** What the calls to API servers come to: which of them fail, which reads are stale. */
module Faults {

  datatype Fault =
    | NoFault
    | FailBefore                 // no answer, and no effect
    | FailAfter                  // a write took effect, but its answer was lost
    | Stale(version: nat)        // a read is answered with an old version; any other call succeeds

  // For the calls to come, in order; later calls succeed.
  type Plan = seq<Fault>

  // A state after some calls, and whether all that mattered were answered with success.
  datatype Done<+T> = Done(state: T, ok: bool)

  function Next(plan: Plan): Fault { if plan == [] then NoFault else plan[0] }

  function Rest(plan: Plan): Plan { if plan == [] then [] else plan[1..] }

  predicate Answers(f: Fault) { f.NoFault? || f.Stale? }

  predicate Lands(f: Fault) { !f.FailBefore? }

  /** No read is stale. */
  predicate Fresh(plan: Plan) { forall f <- plan :: !f.Stale? }
}
