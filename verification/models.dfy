/**
 * The `Version` record of the media pipeline: its two status enumerations (Django
 * `TextChoices`, a stored value and a display label per member), the field
 * defaults of a new version and its `__str__`.
 */
module Models {
  import opened Wrappers
  import opened Text

  /** `max_length` of both status columns. */
  const StatusMaxLength: nat := 20

  /** `Version.ApprovalStatus`; Python member `PENDING` stores `PENDING_REVIEW`. */
  datatype ApprovalStatus = PendingReview | Approved | Rejected {

    /** The value stored in the database column. */
    function Value(): (v: string)
      ensures 0 < |v| <= StatusMaxLength
    {
      match this
      case PendingReview => "PENDING_REVIEW"
      case Approved => "APPROVED"
      case Rejected => "REJECTED"
    }

    /** The human-readable label (`get_approval_status_display()`). */
    function Label(): string {
      match this
      case PendingReview => "Pendiente de Revisión"
      case Approved => "Aprobado"
      case Rejected => "Rechazado"
    }
  }

  /** `Version.TranscodingStatus`. */
  datatype TranscodingStatus = Pending | Processing | Completed | Failed {

    function Value(): (v: string)
      ensures 0 < |v| <= StatusMaxLength
    {
      match this
      case Pending => "PENDING"
      case Processing => "PROCESSING"
      case Completed => "COMPLETED"
      case Failed => "FAILED"
    }

    function Label(): string {
      match this
      case Pending => "Pendiente"
      case Processing => "Procesando"
      case Completed => "Completo"
      case Failed => "Falló"
    }

    /** The states a transcode job ends in. */
    predicate Terminal() {
      Completed? || Failed?
    }
  }

  /**
   * Reading a stored approval value back (what the `choices` validation accepts):
   * exactly the three stored values name a status.
   */
  function ApprovalFromValue(s: string): (r: Option<ApprovalStatus>)
    ensures r.Some? ==> r.value.Value() == s
    ensures r.None? <==> s !in {"PENDING_REVIEW", "APPROVED", "REJECTED"}
  {
    if s == "PENDING_REVIEW" then Some(PendingReview)
    else if s == "APPROVED" then Some(Approved)
    else if s == "REJECTED" then Some(Rejected)
    else None
  }

  /** Reading a stored transcoding value back: exactly the four stored values name a status. */
  function TranscodingFromValue(s: string): (r: Option<TranscodingStatus>)
    ensures r.Some? ==> r.value.Value() == s
    ensures r.None? <==> s !in {"PENDING", "PROCESSING", "COMPLETED", "FAILED"}
  {
    if s == "PENDING" then Some(Pending)
    else if s == "PROCESSING" then Some(Processing)
    else if s == "COMPLETED" then Some(Completed)
    else if s == "FAILED" then Some(Failed)
    else None
  }

  /** Every stored value reads back as the status it came from. */
  lemma ApprovalValueRoundTrip(a: ApprovalStatus)
    ensures ApprovalFromValue(a.Value()) == Some(a)
  {
  }

  lemma TranscodingValueRoundTrip(t: TranscodingStatus)
    ensures TranscodingFromValue(t.Value()) == Some(t)
  {
  }

  /**
   * Attribute access `Version.TranscodingStatus.<name>`: the class defines the
   * members PENDING, PROCESSING, COMPLETED and FAILED and nothing else; any other
   * name raises AttributeError (`None` here).
   */
  function TranscodingMember(name: string): (r: Option<TranscodingStatus>)
    ensures r.Some? <==> name in {"PENDING", "PROCESSING", "COMPLETED", "FAILED"}
    ensures r.Some? ==> r.value.Value() == name
  {
    TranscodingFromValue(name)
  }

  /** The name `ERROR` is not a member of the transcoding enumeration. */
  lemma ErrorIsNotATranscodingStatus()
    ensures TranscodingMember("ERROR") == None
    ensures forall t: TranscodingStatus :: t.Value() != "ERROR"
  {
  }

  /** The fields of a version row, as `save()` writes them. */
  datatype VersionRecord = VersionRecord(
    versionNumber: nat,
    approvalStatus: ApprovalStatus,
    transcodingStatus: TranscodingStatus,
    originalFilePath: string,
    proxyFilePath: string)

  /** A `Version` instance; the pipeline updates its status and proxy path in place. */
  class Version {
    const projectTitle: string
    var versionNumber: nat
    var approvalStatus: ApprovalStatus
    var transcodingStatus: TranscodingStatus
    var originalFilePath: string
    var proxyFilePath: string

    /** A new version with the model's field defaults. */
    constructor (projectTitle: string, originalFilePath: string)
      ensures this.projectTitle == projectTitle && this.originalFilePath == originalFilePath
      ensures versionNumber == 1
      ensures approvalStatus == PendingReview
      ensures transcodingStatus == Pending
      ensures proxyFilePath == ""
    {
      this.projectTitle := projectTitle;
      this.originalFilePath := originalFilePath;
      versionNumber := 1;
      approvalStatus := PendingReview;
      transcodingStatus := Pending;
      proxyFilePath := "";
    }

    /** What `save()` writes. */
    function Record(): VersionRecord
      reads this
    {
      VersionRecord(versionNumber, approvalStatus, transcodingStatus, originalFilePath, proxyFilePath)
    }

    /** `__str__`: `<project title> - v<number> (<approval label>)`. */
    function Str(): (s: string)
      reads this
      ensures |s| > |projectTitle| + 4 && s[..|projectTitle| + 4] == projectTitle + " - v"
      ensures s[|s| - 1] == ')'
    {
      projectTitle + " - v" + Decimal(versionNumber) + " (" + approvalStatus.Label() + ")"
    }
  }

  /** The labels of different approval statuses differ. */
  lemma ApprovalLabelInjective(a: ApprovalStatus, b: ApprovalStatus)
    requires a.Label() == b.Label()
    ensures a == b
  {
  }

  /**
   * Within one project, the text of a version determines its number and its approval
   * status: the number is the run of digits after " - v", and the label follows.
   */
  lemma StrIdentifiesVersion(x: Version, y: Version)
    requires x.projectTitle == y.projectTitle && x.Str() == y.Str()
    ensures x.versionNumber == y.versionNumber && x.approvalStatus == y.approvalStatus
  {
    var dx, dy := Decimal(x.versionNumber), Decimal(y.versionNumber);
    var lx, ly := x.approvalStatus.Label(), y.approvalStatus.Label();
    DescriptionParts(x.projectTitle + " - v", dx, lx, dy, ly);
    DecimalInjective(x.versionNumber, y.versionNumber);
    ApprovalLabelInjective(x.approvalStatus, y.approvalStatus);
  }

  /** `prefix + digits + " (" + label + ")"` determines its digits and its label. */
  lemma DescriptionParts(prefix: string, dx: string, lx: string, dy: string, ly: string)
    requires AllDigits(dx) && AllDigits(dy)
    requires prefix + dx + " (" + lx + ")" == prefix + dy + " (" + ly + ")"
    ensures dx == dy && lx == ly
  {
    var tx, ty := " (" + lx + ")", " (" + ly + ")";
    assert prefix + dx + " (" + lx + ")" == prefix + (dx + tx);
    assert prefix + dy + " (" + ly + ")" == prefix + (dy + ty);
    assert dx + tx == dy + ty by {
      assert (prefix + (dx + tx))[|prefix|..] == dx + tx;
      assert (prefix + (dy + ty))[|prefix|..] == dy + ty;
    }
    DigitsPrefixEqual(dx, dy, tx, ty);
    assert tx == ty by {
      assert (dx + tx)[|dx|..] == tx;
      assert (dy + ty)[|dy|..] == ty;
    }
    assert tx[2..|tx| - 1] == lx;
    assert ty[2..|ty| - 1] == ly;
  }
}
