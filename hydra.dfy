/**
 * The OAuth authority capability of src/controller/hydra.rs: the outcome of a
 * token validation, and the stub client that the service currently ships.
 */
module Hydra {
  import opened Wrappers
  import opened Errors

  /** `HydraValidation` */
  datatype HydraValidation = Valid | Invalid(reason: string)

  /** `DefaultHydraClient { base_url }` */
  datatype HydraClient = HydraClient(baseUrl: string)

  /** `DefaultHydraClient::validate_token`: every token is valid. */
  function StubValidateToken(client: HydraClient, token: string): Result<HydraValidation, BoxedErr> {
    Ok(Valid)
  }

  /** The stub's answer depends on neither the client's `base_url` nor the token. */
  lemma StubIgnoresInputs(c1: HydraClient, c2: HydraClient, t1: string, t2: string)
    ensures StubValidateToken(c1, t1) == StubValidateToken(c2, t2)
  {
  }

  /** The stub never returns `Invalid` and never returns an error. */
  lemma StubAlwaysValid(c: HydraClient, t: string)
    ensures StubValidateToken(c, t).Ok?
    ensures !StubValidateToken(c, t).value.Invalid?
  {
  }
}
