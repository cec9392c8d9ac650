/** The eight audited commands of the decision store, and what each feeds to its
    fingerprint hasher. */
module Commands {
  import opened Basics
  import opened Fingerprints

  datatype Scope = HardCandidate | QualityFullSuite
  datatype Outcome = Passed | Failed | Interrupted
  datatype Verdict = AcceptReview | RejectReview
  datatype Choice = Deliver | Rework | Reject

  datatype Command =
    | SubmitCandidate(
        principal: Text, commandId: Text, attempt: RowId, expectedAttempt: U64, expectedTicket: U64,
        session: RowId, baseCommit: Text, baseTree: Text, regressionTree: Text, candidateTree: Text,
        changedPaths: Artifact, regressionPatch: Artifact, regressionCommandSet: Artifact,
        regressionLog: Artifact, candidatePatch: Artifact, engineeringReport: Artifact,
        engineeringRisks: Artifact, commitSubject: Text, commitBody: Text, regressionIdentity: Text)
    | RecordValidation(
        principal: Text, commandId: Text, candidate: RowId, expectedCandidate: U64, expectedAttempt: U64,
        scope: Scope, build: Digest, session: RowId, profile: Text, pristineTree: Text,
        commandSet: Artifact, outcome: Outcome, durationMillis: U64, log: Artifact)
    | AttachCandidateCommit(
        principal: Text, commandId: Text, candidate: RowId, expectedCandidate: U64,
        candidateCommit: Text, candidateRef: Text)
    | SubmitQualityReview(
        principal: Text, commandId: Text, candidate: RowId, expectedCandidate: U64, expectedAttempt: U64,
        session: RowId, validation: RowId, verdict: Verdict, rationale: Artifact, risks: Artifact,
        probes: Artifact)
    | SponsorTicket(
        principal: Text, commandId: Text, ticketRevision: RowId, expectedTicket: U64, rationale: Artifact)
    | ReleaseTicketAttempt(
        principal: Text, commandId: Text, attempt: RowId, expectedAttempt: U64, expectedTicket: U64,
        rationale: Artifact, headCommit: Text, headTree: Text, firstObservation: RowId,
        secondObservation: RowId)
    | DecideCandidate(
        principal: Text, commandId: Text, candidate: RowId, expectedCandidate: U64, expectedAttempt: U64,
        expectedTicket: U64, review: RowId, choice: Choice, rationale: Artifact,
        overrideReview: Option<RowId>)
    | RecordDelivery(
        principal: Text, commandId: Text, candidate: RowId, expectedCandidate: U64, expectedAttempt: U64,
        expectedTicket: U64, expectedCampaign: U64, expectedOldCommit: Text, candidateCommit: Text,
        resultingCommit: Text, resultingTree: Text, factoryCost: U64, receipt: Artifact)

  function Operation(c: Command): Text {
    if c.SubmitCandidate? then "candidate.submit"
    else if c.RecordValidation? then "validation.record"
    else if c.AttachCandidateCommit? then "candidate.commit.attach"
    else if c.SubmitQualityReview? then "quality.review.submit"
    else if c.SponsorTicket? then "architect.ticket.sponsor"
    else if c.ReleaseTicketAttempt? then "architect.ticket.release"
    else if c.DecideCandidate? then "architect.candidate.decide"
    else "delivery.record"
  }

  function ScopeCode(s: Scope): U8 { if s.HardCandidate? then 0 else 1 }

  function OutcomeCode(o: Outcome): U8 {
    match o case Passed => 1 case Failed => 2 case Interrupted => 3
  }

  function VerdictCode(v: Verdict): U8 { if v.AcceptReview? then 0 else 1 }

  function ChoiceCode(d: Choice): U8 {
    match d case Deliver => 2 case Rework => 3 case Reject => 4
  }

  /** The operation-specific part of each fingerprint, in hashing order. */
  function Payload(c: Command): seq<Field> {
    match c
    case SubmitCandidate(_, _, attempt, expectedAttempt, expectedTicket, session, baseCommit, baseTree,
                         regressionTree, candidateTree, changedPaths, regressionPatch, regressionCommandSet,
                         regressionLog, candidatePatch, engineeringReport, engineeringRisks, commitSubject,
                         commitBody, regressionIdentity) =>
      [FWord(attempt), FWord(expectedAttempt), FWord(expectedTicket), FWord(session),
       FText(baseCommit), FText(baseTree), FText(regressionTree), FText(candidateTree),
       FArtifact(changedPaths), FArtifact(regressionPatch), FArtifact(regressionCommandSet),
       FArtifact(regressionLog), FArtifact(candidatePatch), FArtifact(engineeringReport),
       FText(commitSubject), FText(commitBody), FText(regressionIdentity), FArtifact(engineeringRisks)]
    case RecordValidation(_, _, candidate, expectedCandidate, expectedAttempt, scope, build, session, profile,
                          pristineTree, commandSet, outcome, durationMillis, log) =>
      [FWord(candidate), FWord(expectedCandidate), FWord(expectedAttempt),
       FByte(ScopeCode(scope)), FByte(OutcomeCode(outcome)), FDigest(build), FWord(session),
       FText(profile), FText(pristineTree), FArtifact(commandSet), FWord(durationMillis), FArtifact(log)]
    case AttachCandidateCommit(_, _, candidate, expectedCandidate, candidateCommit, candidateRef) =>
      [FWord(candidate), FWord(expectedCandidate), FText(candidateCommit), FText(candidateRef)]
    case SubmitQualityReview(_, _, candidate, expectedCandidate, expectedAttempt, session, validation, verdict,
                             rationale, risks, probes) =>
      [FWord(candidate), FWord(expectedCandidate), FWord(expectedAttempt), FWord(session), FWord(validation),
       FByte(VerdictCode(verdict)), FArtifact(rationale), FArtifact(risks), FArtifact(probes)]
    case SponsorTicket(_, _, ticketRevision, expectedTicket, rationale) =>
      [FWord(ticketRevision), FWord(expectedTicket), FArtifact(rationale)]
    case ReleaseTicketAttempt(_, _, attempt, expectedAttempt, expectedTicket, rationale, headCommit, headTree,
                              firstObservation, secondObservation) =>
      [FWord(attempt), FWord(expectedAttempt), FWord(expectedTicket), FArtifact(rationale),
       FText(headCommit), FText(headTree), FWord(firstObservation), FWord(secondObservation)]
    case DecideCandidate(_, _, candidate, expectedCandidate, expectedAttempt, expectedTicket, review, choice,
                         rationale, overrideReview) =>
      [FWord(expectedCandidate), FWord(expectedAttempt), FWord(expectedTicket), FWord(candidate), FWord(review),
       FByte(ChoiceCode(choice)), FArtifact(rationale),
       FOptional(match overrideReview case None => None case Some(r) => Some(r))]
    case RecordDelivery(_, _, candidate, expectedCandidate, expectedAttempt, expectedTicket, expectedCampaign,
                        expectedOldCommit, candidateCommit, resultingCommit, resultingTree, factoryCost, receipt) =>
      [FWord(candidate), FWord(expectedCandidate), FWord(expectedAttempt), FWord(expectedTicket),
       FWord(expectedCampaign), FText(expectedOldCommit), FText(candidateCommit), FText(resultingCommit),
       FText(resultingTree), FLittleWord(factoryCost), FArtifact(receipt)]
  }

  function Prefix(c: Command): seq<Field> {
    [FText(Operation(c)), FText(c.principal), FText(c.commandId)]
  }

  /** The preimage of a command's fingerprint. */
  function Fingerprint(c: Command): string {
    Encode(Prefix(c) + Payload(c))
  }

  lemma OperationNamesConstructor(a: Command, b: Command)
    requires Operation(a) == Operation(b)
    ensures a.SubmitCandidate? == b.SubmitCandidate? && a.RecordValidation? == b.RecordValidation?
    ensures a.AttachCandidateCommit? == b.AttachCandidateCommit? && a.SubmitQualityReview? == b.SubmitQualityReview?
    ensures a.SponsorTicket? == b.SponsorTicket? && a.ReleaseTicketAttempt? == b.ReleaseTicketAttempt?
    ensures a.DecideCandidate? == b.DecideCandidate? && a.RecordDelivery? == b.RecordDelivery?
  {
    var x, y := Operation(a), Operation(b);
    assert |x| == |y| && x[0] == y[0] && x[|x| - 1] == y[|y| - 1];
  }

  predicate SameConstructor(a: Command, b: Command) {
    (a.SubmitCandidate? && b.SubmitCandidate?) || (a.RecordValidation? && b.RecordValidation?)
    || (a.AttachCandidateCommit? && b.AttachCandidateCommit?) || (a.SubmitQualityReview? && b.SubmitQualityReview?)
    || (a.SponsorTicket? && b.SponsorTicket?) || (a.ReleaseTicketAttempt? && b.ReleaseTicketAttempt?)
    || (a.DecideCandidate? && b.DecideCandidate?) || (a.RecordDelivery? && b.RecordDelivery?)
  }

  lemma SubmissionShape(a: Command, b: Command)
    requires a.SubmitCandidate? && b.SubmitCandidate?
    ensures SameShape(Payload(a), Payload(b))
  {
  }

  lemma ValidationShape(a: Command, b: Command)
    requires a.RecordValidation? && b.RecordValidation?
    ensures SameShape(Payload(a), Payload(b))
  {
  }

  lemma ReviewShape(a: Command, b: Command)
    requires (a.SubmitQualityReview? && b.SubmitQualityReview?) || (a.AttachCandidateCommit? && b.AttachCandidateCommit?)
    ensures SameShape(Payload(a), Payload(b))
  {
  }

  lemma ArchitectShape(a: Command, b: Command)
    requires (a.SponsorTicket? && b.SponsorTicket?) || (a.ReleaseTicketAttempt? && b.ReleaseTicketAttempt?)
    ensures SameShape(Payload(a), Payload(b))
  {
  }

  lemma DecisionShape(a: Command, b: Command)
    requires a.DecideCandidate? && b.DecideCandidate?
    ensures SameShape(Payload(a), Payload(b))
  {
  }

  lemma DeliveryShape(a: Command, b: Command)
    requires a.RecordDelivery? && b.RecordDelivery?
    ensures SameShape(Payload(a), Payload(b))
  {
  }

  lemma PayloadShape(a: Command, b: Command)
    requires SameConstructor(a, b)
    ensures SameShape(Payload(a), Payload(b))
  {
    if a.SubmitCandidate? { SubmissionShape(a, b); }
    else if a.RecordValidation? { ValidationShape(a, b); }
    else if a.DecideCandidate? { DecisionShape(a, b); }
    else if a.RecordDelivery? { DeliveryShape(a, b); }
    else if a.SponsorTicket? || a.ReleaseTicketAttempt? { ArchitectShape(a, b); }
    else { ReviewShape(a, b); }
  }

  lemma ShapesAppend(a: seq<Field>, x: seq<Field>, b: seq<Field>, y: seq<Field>)
    requires SameShape(a, b) && SameShape(x, y)
    ensures SameShape(a + x, b + y)
  {
  }

  lemma NoAttachments(c: Command)
    ensures forall i :: 0 <= i < |Prefix(c) + Payload(c)| ==> !(Prefix(c) + Payload(c))[i].FAttachments?
  {
    PayloadHasNoAttachments(c);
  }

  lemma PayloadHasNoAttachments(c: Command)
    ensures forall i :: 0 <= i < |Payload(c)| ==> !Payload(c)[i].FAttachments?
  {
  }

  lemma SubmissionPayload(a: Command, b: Command)
    requires a.SubmitCandidate? && b.SubmitCandidate? && Payload(a) == Payload(b)
    requires a.principal == b.principal && a.commandId == b.commandId
    ensures a == b
  {
    var x, y := Payload(a), Payload(b);
    assert x[0] == y[0] && x[1] == y[1] && x[2] == y[2] && x[3] == y[3] && x[4] == y[4] && x[5] == y[5];
    assert x[6] == y[6] && x[7] == y[7] && x[8] == y[8] && x[9] == y[9] && x[10] == y[10] && x[11] == y[11];
    assert x[12] == y[12] && x[13] == y[13] && x[14] == y[14] && x[15] == y[15] && x[16] == y[16] && x[17] == y[17];
  }

  lemma EvidencePayload(a: Command, b: Command)
    requires (a.RecordValidation? && b.RecordValidation?) || (a.RecordDelivery? && b.RecordDelivery?)
    requires Payload(a) == Payload(b) && a.principal == b.principal && a.commandId == b.commandId
    ensures a == b
  {
    var x, y := Payload(a), Payload(b);
    assert x[0] == y[0] && x[1] == y[1] && x[2] == y[2] && x[3] == y[3] && x[4] == y[4] && x[5] == y[5];
    assert x[6] == y[6] && x[7] == y[7] && x[8] == y[8] && x[9] == y[9] && x[10] == y[10];
    if a.RecordValidation? { assert x[11] == y[11]; }
  }

  /** No field of any command is left out of its payload. */
  lemma PayloadDeterminesCommand(a: Command, b: Command)
    requires SameConstructor(a, b) && Payload(a) == Payload(b)
    requires a.principal == b.principal && a.commandId == b.commandId
    ensures a == b
  {
    if a.SubmitCandidate? {
      SubmissionPayload(a, b);
    } else if a.RecordValidation? || a.RecordDelivery? {
      EvidencePayload(a, b);
    } else {
      var x, y := Payload(a), Payload(b);
      assert |x| >= 3 && x[0] == y[0] && x[1] == y[1] && x[2] == y[2];
      if |x| > 3 { assert x[3] == y[3]; }
      if |x| > 4 { assert x[4] == y[4] && x[5] == y[5] && x[6] == y[6] && x[7] == y[7]; }
      if |x| > 8 { assert x[8] == y[8]; }
    }
  }

  /** Two commands with any differing field, or of different operations, have
      different fingerprints. */
  lemma FingerprintInjective(a: Command, b: Command)
    ensures Fingerprint(a) == Fingerprint(b) <==> a == b
  {
    if Fingerprint(a) == Fingerprint(b) {
      NoAttachments(a);
      NoAttachments(b);
      var x: Fields, y: Fields := Prefix(a) + Payload(a), Prefix(b) + Payload(b);
      LeadingText(x, y);
      OperationNamesConstructor(a, b);
      PayloadShape(a, b);
      ShapesAppend(Prefix(a), Payload(a), Prefix(b), Payload(b));
      EncodeInjective(x, y);
      AppendInjective(Prefix(a), Payload(a), Prefix(b), Payload(b));
      assert Prefix(a)[1] == Prefix(b)[1] && Prefix(a)[2] == Prefix(b)[2];
      PayloadDeterminesCommand(a, b);
    }
  }
}
