/** The mock zero-knowledge proof of zkp.go: a proof is the secret behind a
    fixed prefix, and verification only looks at that prefix. */
module Zkp {
  import opened Wrappers

  const ProofPrefix := "proof_of_"

  /** `SimpleZKP.GenerateProof`. */
  function GenerateProof(secret: string): (r: Result<string>)
    ensures secret == "" ==> r == Err("secret data cannot be empty")
    ensures secret != "" ==> r.Ok? && |r.value| == |ProofPrefix| + |secret|
    ensures secret != "" ==> r.value[..|ProofPrefix|] == ProofPrefix && r.value[|ProofPrefix|..] == secret
  {
    if secret == "" then Err("secret data cannot be empty") else Ok(ProofPrefix + secret)
  }

  /** `SimpleZKP.VerifyProof`: longer than the prefix and starting with it. */
  function VerifyProof(proof: string): (r: Result<bool>)
    ensures proof == "" <==> r == Err("proof cannot be empty")
    ensures proof != "" ==> r.Ok? && (r.value <==> |proof| > |ProofPrefix| && proof[..|ProofPrefix|] == ProofPrefix)
  {
    if proof == "" then Err("proof cannot be empty")
    else if |proof| > 9 && proof[..9] == ProofPrefix then Ok(true)
    else Ok(false)
  }

  /** Every generated proof verifies. */
  lemma RoundTrip(secret: string)
    requires secret != ""
    ensures GenerateProof(secret).Ok?
    ensures VerifyProof(GenerateProof(secret).value) == Ok(true)
  {
  }

  /** Every proof that verifies is the proof of exactly one secret. */
  lemma AcceptedIsGenerated(proof: string)
    requires VerifyProof(proof) == Ok(true)
    ensures exists secret :: secret != "" && GenerateProof(secret) == Ok(proof)
    ensures forall s1, s2 :: GenerateProof(s1) == Ok(proof) && GenerateProof(s2) == Ok(proof) ==> s1 == s2
  {
    var secret := proof[|ProofPrefix|..];
    assert ProofPrefix + secret == proof;
    assert GenerateProof(secret) == Ok(proof);
  }

  /** The bare prefix is rejected without an error. */
  lemma BarePrefixRejected()
    ensures VerifyProof(ProofPrefix) == Ok(false)
  {
  }
}
