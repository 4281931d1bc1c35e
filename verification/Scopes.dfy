/** Who is asking, and the error vocabulary of the wire protocol. */
module Scopes {

  /** Failure reasons a caller can see. */
  datatype ErrCode =
    | BadRequest | UnknownOp | UnknownToken | NoScope | AgentTty | ForeignCaller
    | NotHumanKey | Denied | Timeout | TooManyPending | Internal

  /** What a grant belongs to: a token-proven session, or a human's terminal. */
  datatype Scope = Session(token: nat) | Tty(tty: string, bootId: string)

  const CAPABILITY_KEY_PREFIX := "CAP_"

  predicate IsCapability(key: string) { CAPABILITY_KEY_PREFIX <= key }
}
