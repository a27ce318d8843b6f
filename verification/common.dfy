/** Types shared by both routers: identifiers, an optional value, and the
    outcome of a request as the route handler reports it. */
module Common {

  /** Identifiers are compared as strings (`x.toString() === req.user.id`). */
  type UserId = string

  datatype Option<T> = None | Some(value: T)

  /** What a handler answers.
      - `Done`: status 200; the body is the updated document or collection
        (for a deleted post, the message "Post Removed").
      - `Rejected(status, msg)`: an error answer with that status and message;
        most are `json({ msg })`, while several 500 answers send `msg` as
        plain text.
      - `Invalid(errors)`: status 400 with the request-validation error list,
        one message per failed check, in the order the checks are declared. */
  datatype Reply = Done | Rejected(status: nat, msg: string) | Invalid(errors: seq<string>)
}
