/** What the three contracts share: caller identities, an optional value for lookups that
    may find nothing, the error tags the contracts report, and the pair of a
    call's result and the state it leaves behind. */
module Outcome {

  /** Account identifiers are the caller names the host passes in. */
  type Account = string

  /** A lookup result; `None` is the contract's "undefined" value, which the
      lookups report as a success, not as an error. */
  datatype Option<+T> = None | Some(value: T)

  /** One constructor per distinct error message the contracts return. */
  datatype Error =
    | NotAuthorized                       // issue-certificate by anyone but the owner
    | InsufficientBalance                 // transfer above the sender's balance
    | NotAuthorizedOrProducerNotFound     // record-generation: unknown producer or not its owner
    | ProducerNotFound                    // get-total-generation on an unknown producer
    | InvalidAmount                       // create-listing with a non-positive amount
    | NotAuthorizedOrListingNotFound      // cancel-listing: missing, not the seller, or inactive
    | InvalidListingOrInsufficientAmount  // buy-rec: missing, inactive, or too large a purchase
    | MethodNotFound                      // dispatch of an unknown method name

  /** `{ success: true, value }` or `{ success: false, error }`. */
  datatype Result<+T> = Ok(value: T) | Err(error: Error)

  /** What one call returns together with the contract state after it. */
  datatype Step<+S, +T> = Step(result: Result<T>, state: S)

  /** Every id-keyed store holds exactly the ids 1..nonce: ids are handed out
      in order, starting at 1, and never removed. */
  ghost predicate Dense<V>(m: map<int, V>, nonce: nat)
  {
    forall id :: id in m <==> 1 <= id <= nonce
  }

  /** `after` is `before` with `v` stored under `id`: the entry at `id` is `v`,
      and every other id is present and holds the same record as before. */
  ghost predicate Stores<V>(before: map<int, V>, after: map<int, V>, id: int, v: V)
  {
    && id in after
    && after[id] == v
    && (forall j :: j != id ==> (j in after <==> j in before))
    && (forall j :: j != id && j in before ==> after[j] == before[j])
  }
}
