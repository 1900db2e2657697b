/**
 * The request, result and message records of the estimation backend, with
 * the validation the request schema performs and the defaults a fresh
 * result starts from.
 */
module Models {
  import opened Wrappers

  /** Where one estimation job is in its pipeline. */
  datatype EstimationStatus = Pending | Fetching | BaGeneration | PertGeneration | Completed | Failed
  {
    /** The wire value of the status. */
    function Value(): (v: string)
      ensures |v| > 0
    {
      match this
      case Pending => "pending"
      case Fetching => "fetching"
      case BaGeneration => "ba_generation"
      case PertGeneration => "pert_generation"
      case Completed => "completed"
      case Failed => "failed"
    }

    predicate IsTerminal() { this == Completed || this == Failed }
  }

  /** The t-shirt size labels, declared smallest first. */
  datatype TShirtSize = XS | S | M | L | XL | XXL
  {
    /** Position in declaration order: XS is 0, XXL is 5. */
    function Rank(): (k: nat)
      ensures k <= 5
    {
      match this
      case XS => 0
      case S => 1
      case M => 2
      case L => 3
      case XL => 4
      case XXL => 5
    }

    function Label(): (v: string)
      ensures |v| > 0
    {
      match this
      case XS => "XS"
      case S => "S"
      case M => "M"
      case L => "L"
      case XL => "XL"
      case XXL => "XXL"
    }
  }

  /** Each status has its own wire value, so a value names exactly one status. */
  lemma StatusValuesDistinct(a: EstimationStatus, b: EstimationStatus)
    ensures a.Value() == b.Value() <==> a == b
  {
  }

  /** Ranks and labels tell the sizes apart: no two sizes share either. */
  lemma SizeRanksAndLabelsDistinct(a: TShirtSize, b: TShirtSize)
    ensures a.Rank() == b.Rank() <==> a == b
    ensures a.Label() == b.Label() <==> a == b
  {
  }

  /** One item of a batch: the page or issue to estimate and the name of its output. */
  datatype EstimationRequest = EstimationRequest(url: string, name: string, ballpark: Option<string>)

  /** A whole submission. */
  datatype BatchRequest = BatchRequest(items: seq<EstimationRequest>)

  /** The schema's one constraint on an item: a non-empty name. */
  predicate ValidRequest(r: EstimationRequest)
  {
    |r.name| >= 1
  }

  /** The schema's constraints on a batch: at least one item, each item valid. */
  predicate ValidBatch(b: BatchRequest)
  {
    |b.items| >= 1 && forall i :: 0 <= i < |b.items| ==> ValidRequest(b.items[i])
  }

  /** Validation of a submitted batch, as the request schema does it before any job exists. */
  function ValidateBatch(b: BatchRequest): (r: Result<BatchRequest, string>)
    ensures r.Success? <==> ValidBatch(b)
    ensures r.Success? ==> r.value == b
  {
    if |b.items| == 0 then Failure("items: at least 1 item required")
    else if exists i :: 0 <= i < |b.items| && |b.items[i].name| == 0 then Failure("name: at least 1 character required")
    else Success(b)
  }

  /** The state of one job as clients see it. */
  datatype EstimationResult = EstimationResult(
    name: string,
    status: EstimationStatus,
    progress: Option<string>,
    tshirtSize: Option<TShirtSize>,
    manWeeks: Option<real>,
    error: Option<string>,
    baNotesAvailable: bool,
    pertAvailable: bool)

  /** `EstimationResult(name=..., status=...)`: every other field at its default. */
  function NewResult(name: string, status: EstimationStatus): (r: EstimationResult)
    ensures r.name == name && r.status == status
    ensures r.progress.None? && r.tshirtSize.None? && r.manWeeks.None? && r.error.None?
    ensures !r.baNotesAvailable && !r.pertAvailable
  {
    EstimationResult(name, status, None, None, None, None, false, false)
  }

  /** What every broadcast carries: the session and the full list of its results. */
  datatype WebSocketMessage = WebSocketMessage(sessionId: string, results: seq<EstimationResult>)

  /** Nothing in validation looks at names across items: a batch may repeat a name. */
  lemma DuplicateNamesAccepted(url: string, name: string)
    requires |name| >= 1
    ensures var b := BatchRequest([EstimationRequest(url, name, None), EstimationRequest(url, name, None)]);
            ValidateBatch(b) == Success(b)
  {
  }
}
