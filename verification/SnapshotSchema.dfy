/** The records of the semantic snapshot view: one table that both the query and the decoder are driven by. */
module SnapshotSchema {
  datatype Record =
    | ViewRecord | AssetRecord | SnapshotRecord | RevisionVectorRecord | TimePointRecord | MonotonicPointRecord
    | SourceDescriptorRecord | EvidenceRefRecord | NativeBindingRecord | IdentityLinkRecord | FactEnvelopeRecord
    | FactKeyRecord | DimensionRecord | ValueRecord | QuantityRecord | DecimalRecord | SymbolRecord
    | FactCandidateRecord | QualityRecord | TimesRecord | FreshnessPolicyRecord | OriginRefRecord | CausalContextRecord
    | DerivationRecord | DerivationInputRecord | SourcePathRefRecord | ConflictRecord | RetainedObservationRecordRecord
    | ServiceInstanceRecord | DefinitionRefRecord | PackRefRecord | CapabilityInstanceRecord | TypedFieldRecord
    | GenerationFenceRecord | PublicationCursorRecord | EvaluationViewRecord | EvaluationContextRecord
    | EvaluatedFactRecord | EvaluatedRetainedObservationRecord | SelectionRecord | ProjectionReportRecord
    | ProjectionManifestRecord | RequestedItemRecord | ProjectionDispositionRecord | LossDetailRecord

  datatype EnumKind =
    | EvidenceAccessEnum | RedactionStateEnum | SourceStateEnum | OriginKindEnum | BindingStateEnum | LinkStateEnum
    | ValueKindEnum | AssertionKindEnum | QualificationEnum | PromotionEnum | ValidityEnum | AvailabilityEnum
    | FreshnessEnum | ConflictKindEnum | ConflictStateEnum | RetainedRemovalEnum | ItemKindEnum | LossKindEnum
    | ProjectionOutcomeEnum

  datatype Scalar =
    | Text | Identifier | Boolean | Int32 | Uint16 | Uint64 | Int64 | Digest | SemanticVersion
    | Enum(values: EnumKind)

  datatype Base = Rec(record: Record) | Of(scalar: Scalar)

  /** A field of a record: one value or a list of them, and whether null is allowed. */
  datatype Field = Field(base: Base, many: bool, nullable: bool)

  function One(base: Base): Field { Field(base, false, false) }

  function OneOrNull(base: Base): Field { Field(base, false, true) }

  function Many(base: Base): Field { Field(base, true, false) }

  function ManyOrNull(base: Base): Field { Field(base, true, true) }

  function AssetFields(r: Record): map<string, Field> {
    match r
    case ViewRecord => map[
      "assets" := Many(Rec(AssetRecord))]
    case AssetRecord => map[
      "assetId" := One(Of(Identifier)), "snapshot" := OneOrNull(Rec(SnapshotRecord)),
      "evaluation" := OneOrNull(Rec(EvaluationViewRecord)), "projection" := OneOrNull(Rec(ProjectionReportRecord)),
      "selections" := Many(Rec(SelectionRecord)), "unavailableReason" := OneOrNull(Of(Text))]
    case RevisionVectorRecord => map[
      "semantic" := One(Of(Uint64)), "identity" := One(Of(Uint64)), "facts" := One(Of(Uint64)),
      "services" := One(Of(Uint64)), "capabilities" := One(Of(Uint64))]
    case TimePointRecord => map[
      "unixNanoseconds" := One(Of(Int64)), "clockId" := One(Of(Identifier)), "uncertaintyNs" := One(Of(Uint64))]
    case MonotonicPointRecord => map[
      "clockEpochId" := One(Of(Identifier)), "nanoseconds" := One(Of(Uint64))]
    case _ => map[]
  }

  function SnapshotFields(r: Record): map<string, Field> {
    match r
    case SnapshotRecord => map[
      "contract" := One(Of(Identifier)), "snapshotId" := One(Of(Identifier)), "assetId" := One(Of(Identifier)),
      "revisions" := One(Rec(RevisionVectorRecord)), "evaluatedAt" := One(Rec(TimePointRecord)),
      "evaluateMonotonic" := One(Rec(MonotonicPointRecord)), "sources" := Many(Rec(SourceDescriptorRecord)),
      "bindings" := Many(Rec(NativeBindingRecord)), "identityLinks" := Many(Rec(IdentityLinkRecord)),
      "facts" := Many(Rec(FactEnvelopeRecord)),
      "retainedObservations" := ManyOrNull(Rec(RetainedObservationRecordRecord)),
      "services" := Many(Rec(ServiceInstanceRecord)), "capabilities" := Many(Rec(CapabilityInstanceRecord)),
      "fences" := Many(Rec(GenerationFenceRecord)), "cursors" := Many(Rec(PublicationCursorRecord))]
    case _ => map[]
  }

  function SourceFields(r: Record): map<string, Field> {
    match r
    case SourceDescriptorRecord => map[
      "sourceId" := One(Of(Identifier)), "sourceEpochId" := One(Of(Identifier)), "protocolId" := One(Of(Identifier)),
      "profileId" := One(Of(Identifier)), "profileVersion" := One(Of(Identifier)),
      "registryEvidence" := One(Rec(EvidenceRefRecord)), "startedAt" := One(Rec(TimePointRecord)),
      "state" := One(Of(Enum(SourceStateEnum))), "revision" := One(Of(Uint64))]
    case EvidenceRefRecord => map[
      "owner" := One(Of(Identifier)), "kind" := One(Of(Identifier)), "digest" := One(Of(Digest)),
      "contract" := One(Of(Identifier)), "access" := One(Of(Enum(EvidenceAccessEnum))),
      "redaction" := One(Of(Enum(RedactionStateEnum)))]
    case NativeBindingRecord => map[
      "bindingId" := One(Of(Identifier)), "assetId" := One(Of(Identifier)), "sourceId" := One(Of(Identifier)),
      "sourceEpochId" := One(Of(Identifier)), "driverGeneration" := One(Of(Uint64)),
      "nativeResource" := One(Rec(EvidenceRefRecord)), "state" := One(Of(Enum(BindingStateEnum))),
      "revision" := One(Of(Uint64))]
    case IdentityLinkRecord => map[
      "assetId" := One(Of(Identifier)), "bindingId" := One(Of(Identifier)), "state" := One(Of(Enum(LinkStateEnum))),
      "basis" := Many(Rec(EvidenceRefRecord)), "revision" := One(Of(Uint64))]
    case GenerationFenceRecord => map[
      "sourceId" := One(Of(Identifier)), "sourceEpochId" := One(Of(Identifier)),
      "driverGeneration" := One(Of(Uint64)), "reason" := One(Of(Identifier)),
      "evidence" := Many(Rec(EvidenceRefRecord)), "revision" := One(Of(Uint64))]
    case PublicationCursorRecord => map[
      "sourceId" := One(Of(Identifier)), "sourceEpochId" := One(Of(Identifier)),
      "driverGeneration" := One(Of(Uint64)), "lastSequence" := One(Of(Uint64)), "lastBatchDigest" := One(Of(Digest)),
      "fenced" := One(Of(Boolean))]
    case _ => map[]
  }

  function FactFields(r: Record): map<string, Field> {
    match r
    case FactEnvelopeRecord => map[
      "assetId" := One(Of(Identifier)), "key" := One(Rec(FactKeyRecord)),
      "candidates" := Many(Rec(FactCandidateRecord)), "conflicts" := Many(Rec(ConflictRecord)),
      "revision" := One(Of(Uint64))]
    case FactKeyRecord => map[
      "packId" := One(Of(Identifier)), "packVersion" := One(Of(SemanticVersion)), "factId" := One(Of(Identifier)),
      "dimensions" := Many(Rec(DimensionRecord))]
    case DimensionRecord => map[
      "id" := One(Of(Identifier)), "value" := One(Rec(ValueRecord))]
    case ValueRecord => map[
      "kind" := One(Of(Enum(ValueKindEnum))), "quantity" := OneOrNull(Rec(QuantityRecord)),
      "boolean" := OneOrNull(Of(Boolean)), "text" := OneOrNull(Of(Text)), "symbol" := OneOrNull(Rec(SymbolRecord)),
      "symbols" := ManyOrNull(Rec(SymbolRecord)), "time" := OneOrNull(Rec(TimePointRecord))]
    case QuantityRecord => map[
      "number" := One(Rec(DecimalRecord)), "unit" := One(Of(Identifier))]
    case DecimalRecord => map[
      "coefficient" := One(Of(Text)), "exponent10" := One(Of(Int32))]
    case SymbolRecord => map[
      "namespace" := One(Of(Identifier)), "token" := One(Of(Text)), "known" := One(Of(Boolean))]
    case _ => map[]
  }

  function CandidateFields(r: Record): map<string, Field> {
    match r
    case FactCandidateRecord => map[
      "candidateId" := One(Of(Identifier)), "key" := One(Rec(FactKeyRecord)), "value" := OneOrNull(Rec(ValueRecord)),
      "quality" := One(Rec(QualityRecord)), "times" := One(Rec(TimesRecord)),
      "freshnessPolicy" := One(Rec(FreshnessPolicyRecord)), "bindingId" := OneOrNull(Of(Identifier)),
      "sourceEpochId" := OneOrNull(Of(Identifier)), "driverGeneration" := OneOrNull(Of(Uint64)),
      "origin" := One(Rec(OriginRefRecord)), "causal" := OneOrNull(Rec(CausalContextRecord)),
      "evidence" := Many(Rec(EvidenceRefRecord)), "derivation" := OneOrNull(Rec(DerivationRecord)),
      "revision" := One(Of(Uint64))]
    case QualityRecord => map[
      "assertion" := One(Of(Enum(AssertionKindEnum))), "qualification" := One(Of(Enum(QualificationEnum))),
      "promotion" := One(Of(Enum(PromotionEnum))), "validity" := One(Of(Enum(ValidityEnum))),
      "availability" := One(Of(Enum(AvailabilityEnum))), "freshness" := One(Of(Enum(FreshnessEnum))),
      "reasons" := Many(Of(Identifier))]
    case TimesRecord => map[
      "phenomenonAt" := OneOrNull(Rec(TimePointRecord)), "sourceAt" := OneOrNull(Rec(TimePointRecord)),
      "receivedAt" := One(Rec(TimePointRecord)), "receiptMonotonic" := One(Rec(MonotonicPointRecord)),
      "evaluatedAt" := One(Rec(TimePointRecord)), "evaluateMonotonic" := One(Rec(MonotonicPointRecord))]
    case FreshnessPolicyRecord => map[
      "policyId" := One(Of(Identifier)), "version" := One(Of(SemanticVersion)), "freshForNs" := One(Of(Uint64)),
      "retainForNs" := One(Of(Uint64)), "maxWallUncertaintyNs" := One(Of(Uint64))]
    case OriginRefRecord => map[
      "originId" := One(Of(Identifier)), "kind" := One(Of(Enum(OriginKindEnum))),
      "sourceId" := OneOrNull(Of(Identifier)), "sourceEpochId" := OneOrNull(Of(Identifier)),
      "bindingId" := OneOrNull(Of(Identifier)), "evidence" := Many(Rec(EvidenceRefRecord))]
    case CausalContextRecord => map[
      "origin" := One(Rec(OriginRefRecord)), "correlationId" := One(Of(Identifier)),
      "parentCorrelationId" := OneOrNull(Of(Identifier)), "hopCount" := One(Of(Uint16)), "maxHops" := One(Of(Uint16)),
      "firstSeenAt" := One(Rec(TimePointRecord)), "expiresAt" := One(Rec(TimePointRecord)),
      "path" := Many(Of(Identifier))]
    case _ => map[]
  }

  function OriginFields(r: Record): map<string, Field> {
    match r
    case DerivationRecord => map[
      "algorithm" := One(Of(Identifier)), "version" := One(Of(SemanticVersion)),
      "inputs" := Many(Rec(DerivationInputRecord)), "evidence" := Many(Rec(EvidenceRefRecord))]
    case DerivationInputRecord => map[
      "candidateId" := One(Of(Identifier)), "candidateRevision" := One(Of(Uint64)),
      "sourcePaths" := Many(Rec(SourcePathRefRecord))]
    case SourcePathRefRecord => map[
      "bindingId" := One(Of(Identifier)), "sourceId" := One(Of(Identifier)), "sourceEpochId" := One(Of(Identifier)),
      "driverGeneration" := One(Of(Uint64))]
    case ConflictRecord => map[
      "conflictId" := One(Of(Identifier)), "kind" := One(Of(Enum(ConflictKindEnum))),
      "candidates" := Many(Of(Identifier)), "evidence" := Many(Rec(EvidenceRefRecord)),
      "state" := One(Of(Enum(ConflictStateEnum)))]
    case RetainedObservationRecordRecord => map[
      "contract" := One(Of(Identifier)), "candidate" := One(Rec(FactCandidateRecord)),
      "removal" := One(Of(Enum(RetainedRemovalEnum)))]
    case _ => map[]
  }

  function ServiceFields(r: Record): map<string, Field> {
    match r
    case ServiceInstanceRecord => map[
      "instanceId" := One(Of(Identifier)), "assetId" := One(Of(Identifier)),
      "definition" := One(Rec(DefinitionRefRecord)), "bindingId" := One(Of(Identifier)),
      "sourceEpochId" := One(Of(Identifier)), "driverGeneration" := One(Of(Uint64)),
      "qualification" := One(Of(Enum(QualificationEnum))), "availability" := One(Of(Enum(AvailabilityEnum))),
      "revision" := One(Of(Uint64))]
    case DefinitionRefRecord => map[
      "pack" := One(Rec(PackRefRecord)), "id" := One(Of(Identifier)), "version" := One(Of(SemanticVersion))]
    case PackRefRecord => map[
      "id" := One(Of(Identifier)), "version" := One(Of(SemanticVersion))]
    case CapabilityInstanceRecord => map[
      "instanceId" := One(Of(Identifier)), "assetId" := One(Of(Identifier)), "serviceInstance" := One(Of(Identifier)),
      "definition" := One(Rec(DefinitionRefRecord)), "bindingId" := One(Of(Identifier)),
      "sourceEpochId" := One(Of(Identifier)), "driverGeneration" := One(Of(Uint64)),
      "qualification" := One(Of(Enum(QualificationEnum))), "availability" := One(Of(Enum(AvailabilityEnum))),
      "constraints" := Many(Rec(TypedFieldRecord)), "activationEvidence" := Many(Rec(EvidenceRefRecord)),
      "revision" := One(Of(Uint64))]
    case TypedFieldRecord => map[
      "id" := One(Of(Identifier)), "value" := One(Rec(ValueRecord))]
    case _ => map[]
  }

  function EvaluationFields(r: Record): map<string, Field> {
    match r
    case EvaluationViewRecord => map[
      "contract" := One(Of(Identifier)), "snapshotId" := One(Of(Identifier)),
      "revisions" := One(Rec(RevisionVectorRecord)), "context" := One(Rec(EvaluationContextRecord)),
      "facts" := Many(Rec(EvaluatedFactRecord)),
      "retainedObservations" := ManyOrNull(Rec(EvaluatedRetainedObservationRecord)),
      "evaluationDigest" := One(Of(Digest))]
    case EvaluationContextRecord => map[
      "evaluatedAt" := One(Rec(TimePointRecord)), "evaluateMonotonic" := One(Rec(MonotonicPointRecord))]
    case EvaluatedFactRecord => map[
      "candidateId" := One(Of(Identifier)), "candidateRevision" := One(Of(Uint64)),
      "freshness" := One(Of(Enum(FreshnessEnum))), "effectiveAvailability" := One(Of(Enum(AvailabilityEnum)))]
    case EvaluatedRetainedObservationRecord => map[
      "observation" := One(Rec(RetainedObservationRecordRecord)), "freshness" := One(Of(Enum(FreshnessEnum)))]
    case SelectionRecord => map[
      "contract" := One(Of(Identifier)), "snapshotId" := One(Of(Identifier)),
      "revisions" := One(Rec(RevisionVectorRecord)), "evaluationDigest" := One(Of(Digest)),
      "context" := One(Rec(EvaluationContextRecord)), "key" := One(Rec(FactKeyRecord)),
      "policyId" := One(Of(Identifier)), "policyVersion" := One(Of(SemanticVersion)),
      "selectedCandidate" := One(Of(Identifier)), "candidateRevision" := One(Of(Uint64)),
      "presentationOnly" := One(Of(Boolean))]
    case _ => map[]
  }

  function ProjectionFields(r: Record): map<string, Field> {
    match r
    case ProjectionReportRecord => map[
      "contract" := One(Of(Identifier)), "manifest" := One(Rec(ProjectionManifestRecord)),
      "snapshotId" := One(Of(Identifier)), "revisions" := One(Rec(RevisionVectorRecord)),
      "requested" := Many(Rec(RequestedItemRecord)), "dispositions" := Many(Rec(ProjectionDispositionRecord)),
      "causal" := OneOrNull(Rec(CausalContextRecord))]
    case ProjectionManifestRecord => map[
      "targetId" := One(Of(Identifier)), "targetVersion" := One(Of(Identifier)),
      "kernelVersion" := One(Of(Identifier)), "packVersions" := Many(Rec(PackRefRecord)),
      "mappingRevision" := One(Of(Uint64))]
    case RequestedItemRecord => map[
      "itemId" := One(Of(Identifier)), "kind" := One(Of(Enum(ItemKindEnum)))]
    case ProjectionDispositionRecord => map[
      "kind" := One(Of(Enum(ItemKindEnum))), "itemId" := One(Of(Identifier)),
      "outcome" := One(Of(Enum(ProjectionOutcomeEnum))), "sourceKeys" := Many(Rec(FactKeyRecord)),
      "loss" := Many(Rec(LossDetailRecord)), "reason" := OneOrNull(Of(Identifier))]
    case LossDetailRecord => map[
      "kind" := One(Of(Enum(LossKindEnum))), "sourceItems" := Many(Of(Identifier)), "description" := One(Of(Text)),
      "reversible" := One(Of(Boolean))]
    case _ => map[]
  }

  /** The whole table. */
  function Fields(r: Record): map<string, Field> {
    match r
    case ViewRecord | AssetRecord | RevisionVectorRecord | TimePointRecord | MonotonicPointRecord => AssetFields(r)
    case SnapshotRecord => SnapshotFields(r)
    case SourceDescriptorRecord | EvidenceRefRecord | NativeBindingRecord
      | IdentityLinkRecord | GenerationFenceRecord | PublicationCursorRecord => SourceFields(r)
    case FactEnvelopeRecord | FactKeyRecord | DimensionRecord
      | ValueRecord | QuantityRecord | DecimalRecord | SymbolRecord => FactFields(r)
    case FactCandidateRecord | QualityRecord | TimesRecord
      | FreshnessPolicyRecord | OriginRefRecord | CausalContextRecord => CandidateFields(r)
    case DerivationRecord | DerivationInputRecord
      | SourcePathRefRecord | ConflictRecord | RetainedObservationRecordRecord => OriginFields(r)
    case ServiceInstanceRecord | DefinitionRefRecord
      | PackRefRecord | CapabilityInstanceRecord | TypedFieldRecord => ServiceFields(r)
    case EvaluationViewRecord | EvaluationContextRecord
      | EvaluatedFactRecord | EvaluatedRetainedObservationRecord | SelectionRecord => EvaluationFields(r)
    case ProjectionReportRecord | ProjectionManifestRecord
      | RequestedItemRecord | ProjectionDispositionRecord | LossDetailRecord => ProjectionFields(r)
  }

  function Symbols(e: EnumKind): set<string> {
    match e
    case EvidenceAccessEnum => {"public", "authorized", "restricted"}
    case RedactionStateEnum => {"none", "redacted", "metadata_only"}
    case SourceStateEnum => {"current", "retired"}
    case OriginKindEnum => {"native_observation", "derived", "operator", "automation", "projection"}
    case BindingStateEnum => {"current", "fenced", "retired"}
    case LinkStateEnum => {"candidate", "qualified", "rejected", "conflict", "withdrawn"}
    case ValueKindEnum => {"quantity", "boolean", "text", "symbol", "symbols", "time"}
    case AssertionKindEnum => {"observed", "inferred"}
    case QualificationEnum => {"candidate", "qualified", "unsupported", "unknown", "rejected"}
    case PromotionEnum => {"unpromoted", "promoted"}
    case ValidityEnum => {"good", "suspect", "bad", "unknown"}
    case AvailabilityEnum => {"available", "degraded", "unavailable", "withdrawn"}
    case FreshnessEnum => {"fresh", "stale", "expired", "unknown"}
    case ConflictKindEnum => {"value"}
    case ConflictStateEnum => {"open"}
    case RetainedRemovalEnum => {"generation_fence", "source_retirement"}
    case ItemKindEnum => {"fact", "relation", "capability", "operation"}
    case LossKindEnum => {
      "unit", "range", "precision", "time", "symbol", "provenance", "identity", "capability", "operation", "policy"}
    case ProjectionOutcomeEnum => {"exact", "transformed", "withheld", "unrepresentable", "unsupported", "unknown"}
  }

  /** No record contains itself: every record nests records of lower rank only. */
  function Rank(r: Record): nat {
    match r
    case SourceDescriptorRecord => 1
    case NativeBindingRecord => 1
    case IdentityLinkRecord => 1
    case QuantityRecord => 1
    case TimesRecord => 1
    case OriginRefRecord => 1
    case DerivationInputRecord => 1
    case ConflictRecord => 1
    case DefinitionRefRecord => 1
    case GenerationFenceRecord => 1
    case EvaluationContextRecord => 1
    case ProjectionManifestRecord => 1
    case ValueRecord => 2
    case CausalContextRecord => 2
    case DerivationRecord => 2
    case ServiceInstanceRecord => 2
    case DimensionRecord => 3
    case TypedFieldRecord => 3
    case FactKeyRecord => 4
    case CapabilityInstanceRecord => 4
    case FactCandidateRecord => 5
    case SelectionRecord => 5
    case ProjectionDispositionRecord => 5
    case FactEnvelopeRecord => 6
    case RetainedObservationRecordRecord => 6
    case ProjectionReportRecord => 6
    case SnapshotRecord => 7
    case EvaluatedRetainedObservationRecord => 7
    case EvaluationViewRecord => 8
    case AssetRecord => 9
    case ViewRecord => 10
    case _ => 0
  }

  predicate RankBelow(fields: map<string, Field>, n: nat) {
    forall name :: name in fields && fields[name].base.Rec? ==> Rank(fields[name].base.record) < n
  }

  lemma AssetFieldsRankLower(r: Record)
    ensures RankBelow(AssetFields(r), Rank(r))
  {
  }

  lemma SnapshotFieldsRankLower(r: Record)
    ensures RankBelow(SnapshotFields(r), Rank(r))
  {
  }

  lemma SourceFieldsRankLower(r: Record)
    ensures RankBelow(SourceFields(r), Rank(r))
  {
  }

  lemma FactFieldsRankLower(r: Record)
    ensures RankBelow(FactFields(r), Rank(r))
  {
  }

  lemma CandidateFieldsRankLower(r: Record)
    ensures RankBelow(CandidateFields(r), Rank(r))
  {
  }

  lemma OriginFieldsRankLower(r: Record)
    ensures RankBelow(OriginFields(r), Rank(r))
  {
  }

  lemma ServiceFieldsRankLower(r: Record)
    ensures RankBelow(ServiceFields(r), Rank(r))
  {
  }

  lemma EvaluationFieldsRankLower(r: Record)
    ensures RankBelow(EvaluationFields(r), Rank(r))
  {
  }

  lemma ProjectionFieldsRankLower(r: Record)
    ensures RankBelow(ProjectionFields(r), Rank(r))
  {
  }

  lemma FieldsRankLower(r: Record)
    ensures RankBelow(Fields(r), Rank(r))
  {
    AssetFieldsRankLower(r);
    SnapshotFieldsRankLower(r);
    SourceFieldsRankLower(r);
    FactFieldsRankLower(r);
    CandidateFieldsRankLower(r);
    OriginFieldsRankLower(r);
    ServiceFieldsRankLower(r);
    EvaluationFieldsRankLower(r);
    ProjectionFieldsRankLower(r);
  }
}
