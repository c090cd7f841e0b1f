/** The names of what a simulation counts: cryptographic operations and network transfers. */
module Events {

  datatype CryptoEvent =
    | CredDelegation | CredProve | CredVerify
    | NonRevokeGrant | NonRevokeProve | NonRevokeVerify
    | AuditEncrypt | AuditDecrypt | AuditProve | AuditVerify
    | Hash
    | SignNym | VerifyNym
    | SignSchnorr | VerifySchnorr

  datatype Object =
    | Nonce | CredRequest | Credentials
    | TransactionProposal | Endorsement | Transaction
    | NonRevocationRequest | NonRevocationHandle

  datatype Event = Crypto(operation: CryptoEvent) | Transfer(what: Object)
}
