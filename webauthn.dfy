/** The shape of the requests the passkey code sends to the browser's
    credential provider (W3C Web Authentication, navigator.credentials.create
    and navigator.credentials.get) and of the answers it gets back. The provider
    itself is opaque: the operations that use it take it as a function from
    request to answer. */
module WebAuthn {
  import opened Wrappers

  type Byte = b: int | 0 <= b < 256

  /** An ArrayBuffer / Uint8Array. */
  type Buffer = seq<Byte>

  /** COSE algorithm identifier for ECDSA with SHA-256 (section 8.1 of RFC 8152). */
  const ES256: int := -7
  const PUBLIC_KEY_TYPE: string := "public-key"
  const RP_NAME: string := "Safe SmartAccount"
  const USER_LABEL: string := "Safe Owner"
  const CREATE_TIMEOUT_MS: nat := 60_000
  /** Length in bytes of every random challenge and user handle. */
  const RANDOM_LENGTH: nat := 32

  datatype CredentialParameter = CredentialParameter(alg: int, credentialType: string)

  datatype CreationOptions = CreationOptions(
    pubKeyCredParams: seq<CredentialParameter>,
    challenge: Buffer,
    rpName: string,
    userDisplayName: string,
    userId: Buffer,
    userName: string,
    timeoutMs: nat,
    attestation: string)

  datatype CredentialDescriptor = CredentialDescriptor(id: Buffer, credentialType: string)

  datatype RequestOptions = RequestOptions(
    allowCredentials: seq<CredentialDescriptor>,
    challenge: Buffer,
    userVerification: string)

  /** A newly created credential: its rawId and what the attestation
      response's getPublicKey() returns (null when the key is not exposed). */
  datatype Attestation = Attestation(rawId: Buffer, publicKey: Option<Buffer>)

  /** A credential returned by an assertion; only its rawId is used. */
  datatype Assertion = Assertion(rawId: Buffer)

  /** What an awaited provider call yields: the promise rejects (the user
      cancels, the prompt times out, verification fails) or it resolves to a
      credential or to null. */
  datatype ProviderAnswer<+C> = Rejected | Resolved(credential: Option<C>)

  /** The options createPasskey passes to navigator.credentials.create, given
      the two 32-byte random buffers it draws. */
  function CreationRequest(challenge: Buffer, userId: Buffer): (o: CreationOptions)
    requires |challenge| == RANDOM_LENGTH && |userId| == RANDOM_LENGTH
  {
    CreationOptions(
      [CredentialParameter(ES256, PUBLIC_KEY_TYPE)],
      challenge, RP_NAME, USER_LABEL, userId, USER_LABEL, CREATE_TIMEOUT_MS, "none")
  }

  /** The options getPasskeyFromRawId passes to navigator.credentials.get:
      exactly one allowed credential, and user verification required. */
  function AssertionRequest(credentialId: Buffer, challenge: Buffer): (o: RequestOptions)
    requires |challenge| == RANDOM_LENGTH
  {
    RequestOptions([CredentialDescriptor(credentialId, PUBLIC_KEY_TYPE)], challenge, "required")
  }
}
