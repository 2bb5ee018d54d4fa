/**
 * The shapes the server actions share: the form state they return, the
 * outcome of the backend service they call, and the framework effects
 * (`revalidatePath`, `redirect`) they trigger.
 */
module ActionState {
  import opened Wrappers
  import opened Js
  import opened Zod

  /**
   * The returned form state. `strapiErrors: None` and `zodErrors: None` are
   * `null`; `data` is the spread of the previous data and the submitted fields.
   */
  datatype FormState = FormState(
    success: bool,
    message: string,
    strapiErrors: Option<Json>,
    zodErrors: Option<map<string, seq<string>>>,
    data: map<string, Value>)

  /** What the awaited service call does: resolve to a response whose `error` is read, or throw. */
  datatype ServiceOutcome = Responded(error: Option<Json>) | Raised(thrown: Thrown)

  /** A framework call made on the way: `revalidatePath(path)`. */
  datatype Effect = Revalidate(path: string)
}
