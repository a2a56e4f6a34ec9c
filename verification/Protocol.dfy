/** The wire types of the relay protocol. Hashes are injective, so a digest is the value it was taken of. */
module Protocol {
  import opened Base

  const MAX_ATTACHMENTS := 5
  const MAX_ATTACHMENT_BYTES := 2 * 1024 * 1024
  const MAX_REQUEST_PAYLOAD_BYTES := 2 * 1024 * 1024

  datatype RequestStatus =
    | Preparing
    | AwaitingApproval
    | Accepted
    | Running
    | Completed
    | Rejected
    | Expired
    | Cancelled
    | Failed

  predicate Terminal(status: RequestStatus) {
    status in {Completed, Rejected, Expired, Cancelled, Failed}
  }

  datatype Decision = AllowOnce | Deny

  // A random identifier is represented by where it was drawn: the receiver
  // state directory, and how many identifiers were drawn before it.
  datatype DecisionID = DecisionID(owner: nat, draw: nat)
  datatype ClaimID = ClaimID(owner: nat, draw: nat)

  datatype PermissionMode = ReadOnly | GuardedWrite | Custom

  datatype RequestedAccess = RequestedAccess(workspaceAlias: string, mode: PermissionMode)

  datatype ArtifactDescriptor = ArtifactDescriptor(artifactId: string, name: string, sizeBytes: int, sha256: string)

  // `wellFormed` stands for the name, MIME type, base64 and SHA-256 checks of one file.
  datatype AttachmentInput = AttachmentInput(foldedName: string, sizeBytes: int, content: string, wellFormed: bool)

  datatype PromptDigest = Missing | Sha256(prompt: string)

  datatype RequestNotice = RequestNotice(
    requestId: string,
    conversationId: string,
    status: RequestStatus,
    requesterAgentId: string,
    requesterMemberId: string,
    requesterDisplayName: string,
    title: string,
    promptBytes: int,
    promptSha256: PromptDigest,
    requestedAccess: seq<RequestedAccess>,
    attachments: seq<ArtifactDescriptor>,
    createdAt: nat,
    expiresAt: nat)

  datatype ExecutionPayload = ExecutionPayload(
    requestId: string,
    conversationId: string,
    requesterAgentId: string,
    requesterMemberId: string,
    requesterDisplayName: string,
    title: string,
    prompt: string,
    requestedAccess: seq<RequestedAccess>,
    attachments: seq<ArtifactDescriptor>,
    expiresAt: nat)

  datatype ResultPayload = ResultPayload(
    claim: ClaimID,
    state: RequestStatus,
    answer: string,
    failure: string,
    files: seq<AttachmentInput>)
}
